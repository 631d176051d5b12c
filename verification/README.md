# Verification of GopherHarness's durable cores

GopherHarness is an agent runtime. Its hard parts are small state machines that several owners drive and crashes
interrupt, and a few exact algorithms on sequences. This project models them in Dafny, component by component, and
proves what they promise over whole runs. Each module follows one source file or one group of files that work
together; state that the source updates in place is a class whose methods are proved against a specification
function, and a separate module lets every interleaving of those functions, of failing writes and of crashes run as
events of one machine.

| component | modules |
|---|---|
| Cost budget account | `Pricing`, `BudgetLedger`, `BudgetRuns` |
| Approvals and frozen tool batches | `Approvals`, `ToolBatch`, `BatchRuns`, `BatchLedger`, `BatchMeaning` |
| Per-conversation scheduler | `Scheduler`, `SchedulerRuns`, `SchedulerSafety`, `SchedulerApprovals`, `SchedulerMeaning` |
| Journal, gateway and delivery | `Text`, `Journal`, `Delivery`, `HubQueue`, `GatewayRuns`, `GatewaySafety`, `GatewayMeaning`, `Gateway` |
| History selection and repair | `Exchanges`, `Selection`, `Curator`, `BuildChecked`, `Repair`, `RepairMeaning` |
| Tool registry and batches | `Registry`, `RegistryRuns`, `RegistryMeaning`, `IndexedBatch` |
| Fact store and worker quota | `Facts`, `FactRuns`, `FactMeaning`, `Quota` |
| Byte-level algorithms | `EventStream`, `BoundedOutput` |
| Session files | `SessionStore` |

`dafny verify dfyconfig.toml` checks everything.

In the run modules a write has three fates: it reaches the file and its caller learns so (`Good`), it does not reach
the file (`Lost`), or it does and is reported as failed (`Torn`). `Apply` takes one event and leaves the state as it is
when the event's actor is not at that point; `After` is a whole run. Theorems about runs quantify over every list of
events.

## What turned out to be false

Eight claims one might make about the code do not hold; the model keeps the code and states the exact condition.

- A resumption inside the process that failed to journal its results saves the messages it still holds, so a result
  can enter the ledger ahead of its replay (`BatchLedger.StaleMemoryIsSaved`). It is exact if and only if memory and
  ledger agree (`BatchLedger.ResumeIsExactIff`), as after every restart.
- A namespace update compares owners under the name as written and registers the trimmed name, so a definition named
  with surrounding white space can replace a tool that nobody owns (`RegistryRuns.PaddedNameTakesABuiltin`); that is
  the only way (`RegistryRuns.ForeignBindings`), and the owners of this repository, which all start with "mcp_", cannot
  reach a builtin by it. Nor does such an update swap an owner's entire snapshot: a padded name, which a remote server
  may announce (internal/mcpbridge/client.go:194), ends up owned by nobody. The snapshot is swapped if and only if no
  name is padded (`RegistryRuns.SnapshotIsSwappedIff`), and a padded tool outlives the withdrawal of its owner's tools
  (`RegistryRuns.WithdrawalRemovesIff`).
- "dropped" does not mean that nothing was delivered (`Delivery.DroppedAfterALostReply`). It does if and only if the
  outlet is not idempotent or there are no retries (`Delivery.DroppedIsSoundIff`).
- A waiting approval may be left without a goroutine, behind an interrupt in a paused conversation. Between turns it is
  served if and only if the lane is not paused or an approval is at its head
  (`SchedulerApprovals.WaitingApprovalIsServedIff`); over all runs, if and only if the interrupt policy is not used
  or a lane has no room for two waiting jobs (`SchedulerApprovals.ApprovalsAreServedIff`).
- Taking a snapshot of a bounded output fails if and only if the stream is longer than a limit shorter than the marker
  (`BoundedOutput.SnapshotPanicsIff`). The program only makes buffers of 524288 bytes (internal/sandbox/runner.go:89),
  so no shipped limit reaches the failure.
- The worker quota does not outlive the process of a manager without a result file
  (`Quota.WithoutAFileRestartsForget`): over all runs it holds if and only if there is a file, or nothing to admit
  (`Quota.QuotaHoldsIff`).
- A manager with a file may refuse a worker although the hour has room, after a restart that reads a write which was
  reported as failed (`Quota.HalfFailedWritesRefuse`); without a file it never does (`Quota.NoUnjustRefusalIff`).
- The outcome of an event stream can depend on how it is read: if and only if the last line fills the buffer to the
  brim, it matters whether the last bytes come together with the end (`EventStream.JointEndMattersIff`).

## Model

| member | source | states |
|---|---|---|
| `Pricing.Cost` | internal/provider/budget.go:81-100 | the int64 price, or the reason there is none: unpriceable exactly when prices or usage are invalid, overflow exactly when the rounded-up total exceeds int64, otherwise the exact rational cost rounded up |
| `Pricing.Reservation` | internal/provider/budget.go:459-479 | an output limit outside the model's or the window's range is refused; a priced reservation bounds the cost of every usage the request admits |
| `Pricing.ReservationCoversUsage` | internal/provider/budget.go:469-479 | for all prices, windows and usages, the worst-rate reservation is at least the rounded-up cost, which exceeds the exact cost by less than one nano-dollar |
| `Pricing.ReservationIsAttained` | internal/provider/budget.go:469-479 | and it is tight: some usage that the request admits costs exactly what is reserved |
| `BudgetLedger.BudgetAccount.Snapshot` | internal/provider/budget.go:186-227 | the accumulator loop computes the specified view, and rejects a ledger exactly when an attempt is malformed or a total overflows int64 |
| `BudgetLedger.BudgetAccount.TryReserve` | internal/provider/budget.go:335-365 | admission: the ledger becomes the specified one, or stays as it is with the reason |
| `BudgetLedger.BudgetAccount.Update` | internal/provider/budget.go:366-402 | an attempt changes only from an allowed state; anything else is refused and nothing changes |
| `BudgetLedger.BudgetAccount.Run` | internal/provider/budget.go:480-532 | a whole call without file failures: a cancelled reservation is released unsent; a sent one that was priced is settled with that very cost, one that was not stays held as unknown and freezes if asked; an error after sending arises exactly when the cost would not fit int64, and leaves the attempt sending |
| `BudgetLedger.BudgetAccount.Recover` | internal/provider/budget.go:246-290 | orphans are recovered one by one, each under its lease and with its own update; the first that fails, before or after reaching the file, stops it, leaving exactly the ones dealt with recovered, leased attempts alone, and an inconsistent ledger untouched |
| `BudgetLedger.BudgetAccount.TryReconcile` | internal/provider/budget.go:292-333 | an operator settles one unresolved attempt with a cost and a note, or nothing changes |
| `BudgetLedger.TotalsBalance` | internal/provider/budget.go:186-227 | for every ledger, spent plus held equals what reservations cap plus the overruns of settled attempts |
| `BudgetRuns.NoOverdraft` | internal/provider/budget.go:186-227 | over every interleaving of calls, crashes, recoveries and reconciliations: the ledger stays consistent and within int64, and spent plus held is at most the limit plus the settled overruns |
| `BudgetRuns.EveryAdmissionFits` | internal/provider/budget.go:335-365 | any admission anywhere in a run happens on an unfrozen account and leaves spent plus held within the limit |
| `BudgetRuns.NoFalseRefund` | internal/provider/budget.go:480-498 | the provider is invoked only on an attempt durably in sending, at most once, and a reserved or released attempt was never invoked |
| `BudgetRuns.LeaseProtects` | internal/provider/budget.go:236-333 | while the holder of a lease rests, no run of other steps, recovery and reconciliation included, changes its attempt or its call |
| `BudgetRuns.RecoveryIsExact` | internal/provider/budget.go:246-290 | after a crash an unsent reservation is freed and a sent one stays held as unknown; every other attempt, all calls and the history stay as they are |
| `BudgetRuns.SettledAndReleasedAreFinal` | internal/provider/budget.go:366-402 | over every continuation of a run, settled and released attempts never change and no reservation changes its amount |
| `BudgetRuns.FreezeHolds` | internal/provider/budget.go:510-532 | an unpriceable attempt freezes admission until that very attempt is reconciled |
| `BudgetRuns.BooksBalance` | internal/provider/budget.go:186-227 | over every run, spent is the sum of the costs told to the settlements and reconciliations that took effect, and held the sum of the reservations still open |
| `BudgetRuns.SettledAsTold` | internal/provider/budget.go:510-533 | every settled attempt costs exactly what the event that settled it was told |
| `BudgetRuns.UnpricedStaysHeld` | internal/provider/budget.go:510-532 | an attempt without a price keeps its whole reservation held |
| `Approvals.ApprovalStore.TryCreate` | internal/permission/store.go:99-136 | the record book after a creation, and its result, for new, repeated and conflicting actions |
| `Approvals.ApprovalStore.TryDecide` | internal/permission/store.go:137-179 | the book after a decision: a yes leaves the record approved and a no denied, expiry exactly for a pending record whose time is up, and every other record and every other refusal leaves the book as it was |
| `Approvals.ApprovalStore.TryClaim` | internal/permission/store.go:180-223 | the book after a claim, including expiry discovered by it |
| `Approvals.ApprovalStore.TryFinish` | internal/permission/store.go:224-248 | only the claim's own token settles a claimed record, with its receipt |
| `Approvals.ClaimedAtMostOnce` | internal/permission/store.go:180-248 | over all runs of store operations a record is claimed at most once, and for the very action that was frozen |
| `Approvals.RecordsOnlyAdvance` | internal/permission/store.go:137-248 | over all continuations a frozen action never changes, a claim is never undone and final records stay |
| `Approvals.ClaimNeedsExactConsent` | internal/permission/store.go:180-223 | a claim succeeds if and only if the same action is approved for the same principal and has not expired |
| `Approvals.ConsentPrecedesClaim` | internal/permission/store.go:137-223 | over all runs, every claim was preceded by the yes of the record's own principal, on record while the request was pending and in time |
| `Approvals.DenialStands` | internal/permission/store.go:156-169 | once the principal has said no to a pending or approved request it is denied, stays so over every continuation, and was not and will not be claimed |
| `Approvals.ConsentIsEffective` | internal/permission/store.go:137-223 | a yes in time lets the next claim in time by that principal succeed |
| `Approvals.OutcomesAreAsReported` | internal/permission/store.go:224-248 | every settled claim carries the outcome and receipt that the holder of its token reported |
| `Approvals.RecordsAreAsFiled` | internal/permission/store.go:99-136 | every record is the request somebody filed under that identity, with the life it was filed for |
| `ToolBatch.BatchAgent.SaveContinuation` | internal/runtime/approval_continuation.go:97-115 | a save happens if and only if the process's epoch, revision and content are those on disk, and then stamps the continuation with the ledger it belongs to; otherwise nothing changes |
| `ToolBatch.BatchAgent.RecoverBufferedResults` | internal/runtime/approval_continuation.go:274-306 | the redo: accepted ledgers end as the journal says with the continuation advanced, one session write at most; any other ledger, or a session that moved on, leaves disk and continuation as they were |
| `ToolBatch.BatchAgent.ExecuteToolBatch` | internal/runtime/tool_batch.go:39-160 | the loop ends with one result per call in order and no continuation if and only if every call gave one; otherwise whole groups before the first that did not are in the ledger, and the continuation stands at that group with the ledger on disk: pending with its approval, or executing with none; a moved session stops it before anything |
| `ToolBatch.FindGroupEnd` | internal/runtime/tool_batch.go:43-60 | groups are one call, or safe reads up to the limit of four, the end of the batch or the next call that is none |
| `ToolBatch.OthersStandAlone` | internal/runtime/tool_batch.go:43-60 | wherever groups are formed from, a call that is no safe read is a group of its own |
| `ToolBatch.ReadsAreCutByFour` | internal/runtime/tool_batch.go:43-60 | a run of safe reads is cut into groups of four from its first call on |
| `ToolBatch.RecoveryIsExact` | internal/runtime/approval_continuation.go:274-306 | recovery accepts exactly two ledgers, the one journalled against and that one with the results, and both end with the results once |
| `ToolBatch.RecoveryIsIdempotent` | internal/runtime/approval_continuation.go:274-306 | interrupted recovery run again changes the ledger no further |
| `BatchRuns.HandlersRunAtMostOnce` | internal/runtime/tool_batch.go:39-160 | over every run with failing writes, crashes, restarts and resumptions, the handler of a call that is risky or no safe read is invoked at most once |
| `BatchRuns.ClaimIsNeverRedispatched` | internal/runtime/tool_approval.go:63-164 | once a risky call was claimed and its turn is gone or past the handler, no continuation invokes it again, with or without a receipt |
| `BatchRuns.ReceiptIsReplayed` | internal/runtime/tool_approval.go:63-164 | over every continuation of a run a completed record stays as it is, and a turn that comes to its call answers with that receipt and runs nothing |
| `BatchRuns.TurnsOwnTheSession` | internal/runtime/approval_continuation.go:97-104 | over all runs with failing writes and claims by other owners, the session of a running turn is the one on disk, so none of its saves is refused |
| `BatchRuns.EvictedProcessIsPowerless` | internal/runtime/approval_continuation.go:157-200 | a process whose session was claimed elsewhere, or parted from it by a failed write, touches no continuation, ledger, handler or own approval in any continuation until it restarts |
| `BatchRuns.HalfFailedSaveEvicts` | internal/runtime/approval_continuation.go:97-115 | a session write that reached the file and was reported failed leaves the process evicted |
| `BatchMeaning.RiskyCallsRunOnlyWithConsent` | internal/runtime/tool_approval.go:63-164 | over every run with failing writes, crashes and resumptions, if the handler of a risky call was invoked, somebody had said yes to that very call while it was pending and in time |
| `BatchMeaning.DeniedCallNeverRuns` | internal/runtime/tool_approval.go:110-130 | the handler of a call that is denied has not run and runs in no continuation |
| `BatchMeaning.ApprovedCallIsRun` | internal/runtime/tool_approval.go:63-164 | an approved call in time is found, claimed and run once, and record and result are what the handler reported |
| `BatchMeaning.ReceiptsAreReported` | internal/runtime/tool_approval.go:147-163 | every settled record carries the outcome and text that the handler gave to the turn holding its claim |
| `BatchMeaning.ReceiptIsWritten` | internal/runtime/tool_approval.go:147-163 | wherever the handler has run, a durable receipt is never refused; the call answers with the handler's text, but an unattended turn not with an unknown outcome |
| `BatchMeaning.ResumedCallIsDecided` | internal/runtime/approval_continuation.go:205-226 | a turn is resumed only once its call is decided or settled with a known outcome, never with a claim in the air |
| `BatchMeaning.GroupIsCollected` | internal/runtime/tool_batch.go:87-113 | the texts before the first call without one join the memory in order; then the group goes on to be saved, or the turn ends with the continuation naming the approval, or still marked as executing |
| `BatchLedger.LedgerIsExact` | internal/runtime/tool_batch.go:114-152 | at every moment of a clean run the ledger is the base and one result per passed call, plus at most the journalled group; cleared, it holds exactly one result per call |
| `BatchLedger.LedgerOnlyGrows` | internal/runtime/tool_batch.go:114-152 | what a clean run has saved is a prefix of everything saved later |
| `BatchLedger.EarlierResultsAreDurable` | internal/runtime/tool_batch.go:39-152 | before a risky call or a barrier is dispatched, all earlier results are in the ledger |
| `BatchLedger.ResumeIsExactIff` | internal/runtime/approval_continuation.go:157-306 | a resumption that finds an empty journal is exact if and only if the messages the process holds are those on disk |
| `BatchLedger.StaleMemoryIsSaved` | internal/runtime/approval_continuation.go:274-280 | a concrete run in which they are not, and the resumed turn saves a result ahead of its replay |
| `Scheduler.SchedulerObject.TrySubmit` | internal/scheduler/scheduler.go:125-178 | admission equals the specified step: errors in order, the lane made on first use, placement, interruption and the goroutine |
| `Scheduler.SchedulerObject.Place` | internal/scheduler/scheduler.go:161-177 | where approval, inject, interrupt and append put a job, and when a goroutine starts |
| `Scheduler.SchedulerObject.Take` | internal/scheduler/scheduler.go:182-194 | the worker takes the next job or leaves, and an unpaused lane leaves the index with it |
| `Scheduler.SchedulerObject.DrainInbox` | internal/scheduler/scheduler.go:206-221 | draining finishes dead messages and hands over the live ones in order |
| `Scheduler.SchedulerObject.SettleTurn` | internal/scheduler/scheduler.go:233-253 | consumed messages share the outcome unless cancelled, the rest of the inbox is requeued behind the queue, pauses follow the outcome |
| `Scheduler.SchedulerObject.CancelConversation` | internal/scheduler/scheduler.go:264-277 | cancels the running turn and what waits, and finishes and drops what waits, in that conversation only |
| `Scheduler.SchedulerObject.SealAdmission` | internal/scheduler/scheduler.go:281-295 | closes admission and cancels the running turn and what waits of every conversation in the index |
| `SchedulerMeaning.CancellationIsExact` | internal/scheduler/scheduler.go:264-295 | in every reachable state, cancelling a conversation or sealing cancels exactly the running turns and waiting messages of the conversations meant, tells and drops exactly those that wait, and changes no other lane |
| `SchedulerMeaning.SubmissionIsPlaced` | internal/scheduler/scheduler.go:125-178 | in every reachable state, where each policy puts a submission, whom it interrupts, when a goroutine starts, and that a refused one changes no lane |
| `SchedulerMeaning.DrainTakesInOrder` | internal/scheduler/scheduler.go:206-221 | a turn takes the messages of its inbox that nobody cancelled, all of them and in their order, behind those it has |
| `SchedulerMeaning.TurnsEnd` | internal/scheduler/scheduler.go:233-253 | what the turn did not take is queued behind what waits; its conversation is paused, resumed or as it was |
| `SchedulerMeaning.VerdictsHaveCauses` | internal/scheduler/scheduler.go:205-277 | a handle's verdict is its own turn's outcome, that of the turn that took it, or a cancellation before any did, and each of these gives it |
| `SchedulerSafety.OneTurnPerConversation` | internal/scheduler/scheduler.go:179-255 | in every reachable state two busy workers of one conversation are the same worker |
| `SchedulerSafety.RunnersHoldSlots` | internal/scheduler/scheduler.go:195-230 | each pool counts exactly its holders, never exceeds its size, and the runner works only inside a slot |
| `SchedulerSafety.NothingStranded` | internal/scheduler/scheduler.go:151-194 | queue and inbox stay within capacity; waiting work has a goroutine or waits behind a pause for an approval |
| `SchedulerSafety.EachJobInOnePlace` | internal/scheduler/scheduler.go:160-255 | every accepted job is finished, or held exactly once by its conversation's lane, and by no other |
| `SchedulerSafety.ClosedMeansFinished` | internal/scheduler/scheduler.go:279-306 | when close reports success every accepted handle is finished |
| `SchedulerSafety.HandedAtMostOnce` | internal/scheduler/scheduler.go:205-245 | a job reaches the runner at most once, and its verdict says whether it did |
| `SchedulerSafety.VerdictsAreFinal` | internal/scheduler/scheduler.go:79 | a handle's first verdict is its last, over every continuation |
| `SchedulerSafety.QueuesKeepTheirOrder` | internal/scheduler/scheduler.go:161-177 | no step reorders a queue: jobs leave at its head or all at once, only approvals and interrupts are put ahead, and everything else goes behind |
| `SchedulerApprovals.WaitingApprovalIsServedIff` | internal/scheduler/scheduler.go:182-194 | between turns a lane with a waiting approval keeps or gets a goroutine if and only if it is not paused or an approval is at its head |
| `SchedulerApprovals.ApprovalsAreServed` | internal/scheduler/scheduler.go:161-177 | in runs without interrupt submissions approvals come first in every queue, and a lane where one waits has a goroutine |
| `SchedulerApprovals.ApprovalsAreServedIff` | internal/scheduler/scheduler.go:161-194 | no run strands a waiting approval if and only if the interrupt policy is not used or there is no room for two waiting jobs |
| `Text.BlankIsAllSpace` | internal/journal/journal.go:45-47 | a note is blank exactly when it holds nothing but Unicode white space |
| `Journal.JournalOwner.constructor` | internal/journal/journal.go:102-132 | opening raises the epoch and turns what was running or sending into unresolved outcomes, in one loop over all records |
| `Journal.JournalOwner.PutRecord` | internal/journal/journal.go:158-176 | a record is created once; a repeat, a fenced owner or a missing identity changes nothing |
| `Journal.JournalOwner.MoveRecord` | internal/journal/journal.go:177-198 | a transition happens only from the named state and only for the current owner |
| `Journal.JournalOwner.CompleteRecord` | internal/journal/journal.go:200-219 | the inbox record is settled and its reply published in one step |
| `Journal.JournalOwner.ResolveRecord` | internal/journal/journal.go:44-85 | operator decisions on unresolved outcomes, with every refusal |
| `GatewayMeaning.StatusesFollowTheTable` | internal/journal/journal.go:44-219 | over every run, each step changes the status of a record exactly as one table of transitions says, and leaves its message alone |
| `GatewayMeaning.OpeningLeavesNothingInTheAir` | internal/journal/journal.go:102-132 | over every run, an opening leaves no record running or sending: exactly those wait for an operator, all others are as they were |
| `GatewayMeaning.DeliveredMeansReceived` | internal/delivery/hub.go:165-184 | over every run, a delivered record carries a receipt that some call for it gave or an operator confirmed |
| `GatewayMeaning.DroppedMeansTerminal` | internal/delivery/hub.go:165-184 | a dropped record had a call that failed terminally, and an abandoned one an operator who decided so |
| `GatewayMeaning.WaitingMessagesAreSent` | internal/delivery/durable.go:15-49 | without a failing write, a posted summary or answer is queued while its record waits, a replay queues what waits, and a queued message of a waiting record goes into a send of its own |
| `Delivery.Send` | internal/delivery/hub.go:185-233 | the retry loop over any sequence of answers equals its specification |
| `Delivery.SendJournalled` | internal/delivery/hub.go:165-184 | the outlet is called only after the claim is durable; afterwards the record is delivered with the receipt exactly when the last call gave one, dropped exactly when it failed terminally, and unknown otherwise |
| `Delivery.CalledAgainOnlyAfterRejection` | internal/delivery/hub.go:190-217 | within one claim a non-idempotent outlet is called again only after a definitive rejection |
| `Delivery.OutcomeMeaning` | internal/delivery/hub.go:190-229 | delivered exactly when the last call gave a receipt, dropped exactly when it failed terminally, with at most retries plus one calls |
| `Delivery.RetriesAreUsed` | internal/delivery/hub.go:190-229 | another call is made exactly while the retries last, unless the last one gave a receipt, a panic, a terminal failure, or a lost reply of a non-idempotent outlet, or the hub shuts down |
| `Delivery.DroppedMeansRejected` | internal/delivery/hub.go:204-216 | on a non-idempotent outlet, dropped means that every call before the terminal one was rejected |
| `Delivery.DroppedAfterALostReply` | internal/delivery/hub.go:204-216 | for every number of retries but none, an idempotent outlet may lose a reply and then end as dropped, where a non-idempotent one ends as unknown |
| `Delivery.DroppedIsSoundIff` | internal/delivery/hub.go:204-216 | over all answers, dropped means that every earlier call was rejected if and only if the outlet is not idempotent or there are no retries |
| `Delivery.RejectedToTheEndIsUncertain` | internal/delivery/hub.go:212-216 | rejections until the retries run out still end as unknown |
| `Delivery.PostDurable` | internal/delivery/durable.go:15-49 | post under a stable ID: record, or reuse what is saved while it waits |
| `Delivery.PostQueuesWhatWaits` | internal/delivery/durable.go:15-49 | a post succeeds exactly for a routable message of the current owner under an ID that is free or its own, and queues it if and only if its record waits |
| `Delivery.PostBindsTheIdentifier` | internal/delivery/durable.go:26-49 | a later post under the same ID queues the same message or nothing |
| `HubQueue.HubObject.TryPost` | internal/delivery/hub.go:98-132 | admission keeps counter and idle channel those of the hub state of the run theorems, and is one of its steps |
| `HubQueue.HubObject.Finish` | internal/delivery/hub.go:134-141 | settling a message is that step of the run; the idle channel is closed exactly when none is left, and was open before |
| `HubQueue.HubObject.ReapQueue` | internal/delivery/hub.go:256-275 | once posters and workers are gone, draining the queues settles every message, closes the idle channel and lets the close finish |
| `HubQueue.EveryMessageIsCounted` | internal/delivery/hub.go:98-164 | the counter is the number of unsettled messages, and the idle channel is closed exactly when there are none and never twice |
| `HubQueue.ClosedHubHasSettledAll` | internal/delivery/hub.go:244-282 | when close completes every admitted message has been settled and no more are admitted |
| `GatewayRuns.RepliesAndSummariesAreDisjoint` | internal/gatewayapp/workers.go:16-22 | for channel names without a colon, reply IDs and worker-summary IDs collide exactly when a channel is called worker |
| `GatewaySafety.AtMostOneTurnPerEvent` | internal/gateway/gateway.go:99-192 | over all publishes, replays, refusals, crashes and re-opens, on any channels, an inbound event starts at most one turn, and only with its record durably past waiting |
| `GatewaySafety.ReplyIffCompleted` | internal/journal/journal.go:200-219 | an event is completed if and only if its reply record exists, and the reply is addressed to the event's source |
| `GatewaySafety.CompleteKeepsReplies` | internal/journal/journal.go:200-219 | the unconditional outbox write never overwrites: a running event has no reply yet |
| `GatewaySafety.RecordsAreBound` | internal/journal/journal.go:158-219 | a record is never removed and never carries another message, over every continuation |
| `GatewaySafety.SentIsRecorded` | internal/delivery/hub.go:165-184 | whatever a delivery loop sends is the recorded message |
| `GatewaySafety.ClaimsAreAllowed` | internal/journal/journal.go:44-85 | effective pending-to-sending claims of a record, plus one while it waits, equal one plus its confirmed_not_sent decisions |
| `GatewaySafety.DeliveriesAreAllowed` | internal/delivery/hub.go:165-233 | calls of a non-idempotent outlet that may have delivered a record are no more than its claims and what operators allowed |
| `GatewaySafety.OpeningFencesOthers` | internal/journal/journal.go:102-131 | in any run, an opening fences every owner there is |
| `GatewaySafety.FencedOwnersChangeNothing` | internal/journal/journal.go:133-145 | an owner once fenced or closed changes nothing in the book any more, whatever has happened since |
| `Gateway.GatewayObject.Publish` | internal/gateway/gateway.go:48-193 | one publish under the lock: the checks in order, then record, claim, submit, and hand back on refusal; a turn starts if and only if every check passes and the record is new or still waiting |
| `Gateway.PublishIsItsSteps` | internal/gateway/gateway.go:99-156 | the call is the composition of the run machine's steps, a turn is submitted with its record durably running, and no other record changes |
| `Gateway.CallsAreTheLoop` | internal/delivery/hub.go:190-229 | the calls of the run machine are the retry loop: same outcome, same number of calls, nothing durable |
| `Gateway.SendIsItsSteps` | internal/delivery/hub.go:165-229 | a journalled send is the run machine's claim, calls and finish, and happens if and only if the record is pending and the owner current |
| `Exchanges.ValidateClosure` | internal/contextbuilder/closure.go:10-41 | the loop reports the first fault of the specified scan, and none exactly for closed histories |
| `Exchanges.ClosedMeansAnswered` | internal/contextbuilder/closure.go:10-41 | in a closed history no call ID is used twice and each call has exactly one result |
| `Exchanges.ValidateConversation` | internal/provider/chat.go:36-63 | the provider's loop, against its own scan |
| `Exchanges.SendableIffPlain` | internal/provider/chat.go:36-63 | a closed history passes the provider's check if and only if every message has a known role, named calls and labelled results |
| `Selection.MakeGroups` | internal/contextbuilder/curator.go:343-368 | both loops: user-turn groups with scores and protection |
| `Selection.SplitIsExact` | internal/contextbuilder/curator.go:343-351 | grouping loses and reorders nothing |
| `Selection.SplitCutsAtUsers` | internal/contextbuilder/curator.go:343-351 | groups begin exactly at user messages |
| `Selection.ProtectionIsExact` | internal/contextbuilder/curator.go:343-368 | protected are the groups that begin within the first six messages, the group that ends the history, and no other; the scores at the start are 0.8, 0.75 and 0.5 |
| `Selection.SelectMessages` | internal/contextbuilder/curator.go:125-131 | the messages of the kept groups in order |
| `Selection.KeepingAllIsWhole` | internal/contextbuilder/curator.go:125-131 | keeping every group gives the history back |
| `Selection.SelectionStaysClosed` | internal/contextbuilder/curator.go:121-131 | for every closed history and every choice of groups the selection is closed |
| `Selection.RelabelInPlace` | internal/contextbuilder/messages.go:34-42 | legacy tool output, and nothing else, becomes marked user data, in place |
| `Selection.RelabelKeepsClosure` | internal/contextbuilder/messages.go:34-42 | relabelling neither breaks nor mends closure |
| `Selection.NativeListIsSendable` | internal/contextbuilder/messages.go:27-45 | every list built from a closed history is closed, and passes the provider's check if and only if the kept messages have known roles and named calls |
| `Curator.FallbackSelection` | internal/contextbuilder/curator_loop.go:345-370 | keeps exactly the groups that are protected, have fewer than twelve better-ranked messages, or fewer than sixteen later ones |
| `Curator.RanksAreStrict` | internal/contextbuilder/curator_loop.go:345-352 | the ranking is a strict order over a permutation of the groups |
| `Curator.RuleFollowsRank` | internal/contextbuilder/curator_loop.go:345-370 | rank follows score, and among equals the later group: who beats a group that is kept for its rank is kept |
| `Curator.PruneLoop` | internal/contextbuilder/curator.go:296-311 | the prune loop equals its specification |
| `Curator.PruneCutsAPrefix` | internal/contextbuilder/curator.go:296-311 | pruning removes the unprotected part of a prefix of the candidates and stops at the first prompt that fits |
| `BuildChecked.LoadScores` | internal/contextbuilder/curator_store.go:256-291 | the loop over kept entries loads every group's score under the current protection, or fails on one bad entry |
| `BuildChecked.LoadedScoresOnly` | internal/contextbuilder/curator_store.go:273-289 | loading changes nothing but scores, and leaves protected groups at 0.8 or above |
| `BuildChecked.LoadedScoresAre` | internal/contextbuilder/curator_store.go:273-289 | a group found by its messages scores what was kept, at least 0.75 if it reaches into the last twelve messages and 0.8 if it is protected; one not found is as it was |
| `BuildChecked.PlanIsTheFirstAccepted` | internal/contextbuilder/curator_loop.go:61-327 | the plan is the first selection submitted that is valid, fits with the state of that moment and could be written, with the scores of that moment; there is none exactly if none was such |
| `BuildChecked.CuratorScoresAre` | internal/contextbuilder/curator_loop.go:235-253 | the curator's scores are those it gave, with 0.8 as the least for a protected group; all others stay |
| `BuildChecked.SelectorScoresAre` | internal/contextbuilder/curator.go:239-279 | a selector's scores count for groups that are not protected; all others stay |
| `BuildChecked.ArchivedScoresAre` | internal/contextbuilder/curator_loop.go:261-286 | an archived group scores at most 0.45; all others stay |
| `BuildChecked.RunCurator` | internal/contextbuilder/curator_loop.go:61-327 | unless the kept scores cannot be loaded, the action loop returns the first plan that was valid, stored and measured to fit, with the scores and state of that moment |
| `BuildChecked.AcceptedPlanFits` | internal/contextbuilder/curator_loop.go:217-233 | an accepted plan fits as it will be rendered, and changes nothing of the groups but scores |
| `BuildChecked.BuildPrompt` | internal/contextbuilder/curator.go:177-341 | the assembly over every path is the function that the lemmas from LightPromptIsWhole to PruningIsMinimal characterise |
| `BuildChecked.LightPromptIsWhole` | internal/contextbuilder/curator.go:200-210 | a light request whose whole prompt fits, and whose sections count, gives the whole history with scores and state untouched |
| `BuildChecked.NoCountHasACause` | internal/contextbuilder/curator.go:200-340 | no count arises only from a measured prompt, or sections, that cannot be counted |
| `BuildChecked.SlowPathStarts` | internal/contextbuilder/curator.go:203-295 | a heavy or oversized request starts from the accepted plan and everything protected, else from the whole history with the selector's scores, else from what the rule of twelve and sixteen messages keeps |
| `BuildChecked.SlowPathEnds` | internal/contextbuilder/curator.go:296-340 | and ends with what pruning leaves of that start, built if it fits and the budget error if not |
| `BuildChecked.BuildIsSoundAndComplete` | internal/contextbuilder/curator.go:200-340 | success is within both limits, the framing reserve included, and holds every protected group; the budget error means that the protected groups alone are over |
| `BuildChecked.AcceptedPlanIsNeverPruned` | internal/contextbuilder/curator.go:226-311 | an accepted curator plan is the result |
| `BuildChecked.PruningFollowsScores` | internal/contextbuilder/curator.go:296-311 | whatever was pruned scored no higher than any unprotected group that stayed |
| `BuildChecked.PruningIsMinimal` | internal/contextbuilder/curator.go:296-311 | at every earlier cut the prompt did not fit |
| `BuildChecked.BuiltPromptIsClosed` | internal/contextbuilder/curator.go:200-340 | on every path a closed history gives a closed prompt that fits and holds every protected group |
| `BuildChecked.MeasureMessages` | internal/contextbuilder/messages.go:47-91 | the gate before later calls passes exactly for valid budgets, closed lists and counts within both limits, with the default window and reserve and each refusal for its reason |
| `Repair.CloseInterruptedExchanges` | internal/runtime/recovery.go:13-58 | the loop with its flushes equals the specified repair, including the number of added receipts |
| `Repair.InputIsKept` | internal/runtime/recovery.go:13-58 | the input is the output without the added lines |
| `RepairMeaning.RepairedIsClosedIffShaped` | internal/runtime/recovery.go:13-58 | a repaired ledger is closed if and only if its messages had the shape of tool exchanges |
| `RepairMeaning.ClosedIsUnchanged` | internal/runtime/recovery.go:13-58 | a closed ledger comes back unchanged |
| `RepairMeaning.RepairIsAFixedPoint` | internal/runtime/recovery.go:13-58 | repairing twice repairs no more |
| `RepairMeaning.OneReceiptPerUnansweredCall` | internal/runtime/recovery.go:18-29 | each call without a receipt gets exactly one, and no other line is added |
| `RepairMeaning.RepairedAddsReceipts` | internal/runtime/recovery.go:18-29 | every added line is a tool result without calls that says the outcome of its tool is unknown |
| `RepairMeaning.RefusedIffFaulty` | internal/runtime/recovery.go:32-54 | a well-formed ledger is refused if and only if some message repeats a call ID or carries an orphan or duplicate receipt |
| `RepairMeaning.InterruptedLedgerIsRepaired` | internal/runtime/recovery.go:13-58 | all of the above for every ledger the runtime writes |
| `Registry.RegistryObject.RegisterOne` | internal/tools/tools.go:84-110 | one registration, or nothing changes |
| `Registry.RegistryObject.Stage` | internal/tools/schema.go:92-98 | validation into a scratch registry reports the first fault |
| `Registry.RegistryObject.RegisterMany` | internal/tools/schema.go:92-116 | all of a directory or nothing |
| `Registry.RegistryObject.ReplaceOwners` | internal/tools/invocation.go:177-222 | all of a namespace update or nothing, with conflicts against other owners |
| `RegistryMeaning.RegistrationIsExact` | internal/tools/tools.go:84-110 | one registration is refused for exactly these reasons, or bound alone, under the next generation and of unknown effect |
| `RegistryMeaning.StagedIff` | internal/tools/schema.go:92-98 | a list is accepted exactly if every definition is whole and no two have one name after trimming; otherwise its first fault is reported |
| `RegistryMeaning.DirectoryIsTakenIff` | internal/tools/schema.go:92-116 | a directory is taken exactly if it is acceptable and every name is new to the registry |
| `RegistryMeaning.UpdateIsRefusedIff` | internal/tools/invocation.go:177-203 | the refusals of a namespace update in their order, each with its exact condition |
| `RegistryMeaning.UpdateIsExact` | internal/tools/invocation.go:177-222 | an accepted update binds each of its definitions, inside the namespace of its owner; elsewhere everything stays, but what the updated owners held is gone |
| `RegistryMeaning.PreparedIff` | internal/tools/invocation.go:54-75 | a call is prepared exactly if its tool is bound, and as it was advertised where it was; it is then that tool |
| `Registry.InvocationObject.TryAdmit` | internal/tools/invocation.go:76-99 | admission: the generation must still be current, and only the first is admitted; a second is told so |
| `RegistryRuns.AdmittedAsAdvertised` | internal/tools/invocation.go:54-99 | no ABA: an invocation prepared from a catalog is admitted only while the advertised definition itself is in place, and calls its handler |
| `RegistryRuns.InvokedAtMostOnce` | internal/tools/invocation.go:91-95 | every prepared invocation enters its handler at most once |
| `RegistryRuns.UpdatesAreWholeOrNothing` | internal/tools/invocation.go:177-222 | a bulk update binds every one of its definitions, body and handler, under new generations, or changes nothing |
| `RegistryRuns.SnapshotIsSwappedIff` | internal/tools/invocation.go:174-222 | after an update an owner's tools are exactly those of its definitions if and only if none of their names is padded |
| `RegistryRuns.WithdrawalRemovesIff` | internal/tools/invocation.go:223-225 | withdrawing an owner's tools removes one of them if and only if its name was written without padding |
| `RegistryRuns.ForeignBindings` | internal/tools/invocation.go:194-222 | a successful update never touches another owner's binding, and touches an unowned one if and only if a definition's name is padded with white space around it |
| `RegistryRuns.PaddedMeans` | internal/tools/invocation.go:184-191 | padding is a matter of the names as written |
| `RegistryRuns.TrimmedUpdatesKeepOthers` | internal/tools/invocation.go:194-222 | when every name is written trimmed, everything the updated owners do not hold stays |
| `RegistryRuns.PaddedNameTakesABuiltin` | internal/tools/invocation.go:177-222 | a concrete namespace update that replaces a builtin |
| `RegistryRuns.UpdatesAreUnclassified` | internal/tools/invocation.go:212-220 | whatever an owner registers is of unknown effect, so no update makes a tool a safe read |
| `IndexedBatch.RunIndexedBatch` | internal/tools/batch.go:44-102 | results stay in input order: the started prefix has its own codes and the rest is cancelled |
| `IndexedBatch.NothingStartsAfterAnAbort` | internal/tools/batch.go:86-98 | only group members of a call that was cancelled or panicked run beside it; no later group starts |
| `IndexedBatch.BarriersWait` | internal/tools/batch.go:56-65 | a call that is no safe read starts only after everything before it reported without abort |
| `IndexedBatch.CutShortForCause` | internal/tools/batch.go:50-101 | a batch stops early only where its context was done or the group before it aborted |
| `Facts.ComputeAuthority` | internal/memory/backend.go:63-76 | the strongest kind of evidence |
| `Facts.ApplyCandidate` | internal/memory/backend.go:93-151 | one candidate: refusals, merged evidence, pending, superseding |
| `FactMeaning.RefusedIff` | internal/memory/backend.go:93-111 | a candidate is refused exactly for an empty or unclean field, an unknown source, or no evidence |
| `FactMeaning.AuthorityIsTheStrongestKind` | internal/memory/backend.go:63-76 | confirmed by the user outranks verified in the workspace, which outranks conversation, which outranks anything else |
| `FactMeaning.KeysAgreeIff` | internal/memory/backend.go:54-62 | two facts speak of one key exactly if their scopes agree and their trimmed subjects and attributes do, but for case |
| `FactMeaning.StrongerOrEqualWins` | internal/memory/backend.go:120-151 | against another believed value, a candidate of at least its authority takes its place and names it, and a weaker one waits beside it |
| `FactMeaning.FirstBelief` | internal/memory/backend.go:120-151 | while nothing is believed of its key, a candidate with any authority is believed and one without waits |
| `FactMeaning.SameValueGainsEvidence` | internal/memory/backend.go:127-141 | a value believed already only gains the evidence it lacked |
| `Facts.FactBackend.UpsertFacts` | internal/memory/backend.go:77-91 | all candidates or none, under an optional expected revision |
| `Facts.FactBackend.StoreTurn` | internal/memory/backend.go:196-236 | a turn's extraction, marked inside the transaction |
| `FactMeaning.UpdatesAreRecorded` | internal/memory/backend.go:77-155 | over every run, a successful upsert or first extraction of a turn leaves every candidate in the store with all its evidence, and every new fact says what some candidate said; the turn is marked, and a marked turn changes nothing |
| `Facts.FactBackend.InvalidateFact` | internal/memory/backend.go:239-250 | the first fact with the ID and scope is marked |
| `FactMeaning.InvalidationIsExact` | internal/memory/backend.go:239-250 | over every run, an invalidation withdraws exactly the fact with that identifier and scope, and fails exactly if there is none |
| `FactRuns.OneActiveFactPerKey` | internal/memory/backend.go:112-149 | in every reachable store at most one fact per scope, subject and attribute is active, with authority at least one |
| `FactRuns.LinksLeadBackwards` | internal/memory/backend.go:146-151 | identifiers are unique and supersedes links lead strictly backwards within one key |
| `FactRuns.FactsAreKept` | internal/memory/backend.go:92-155 | facts are never removed and keep value and evidence over every continuation |
| `FactRuns.BeliefFallsOnlyByInvalidation` | internal/memory/backend.go:125-149 | the authority of what is believed of a key falls only by an invalidation of the very fact believed, and then to nothing |
| `FactRuns.TurnAppliedAtMostOnce` | internal/memory/backend.go:196-236 | a turn's extraction enters the store at most once |
| `FactRuns.MergedIsUnion` | internal/memory/backend.go:127-139 | merged evidence is the old and the cited evidence, no source missing and none invented |
| `FactRuns.NoLostUpdate` | internal/memory/backend.go:77-91 | over every continuation an upsert naming a revision read earlier meets the revision conflict if and only if an upsert, a stored turn or an invalidation took effect since; otherwise it works on the store as it was read |
| `Quota.ManagerObject.Admit` | internal/worker/manager.go:100-118 | prune, check, record, persist, and take back on failure |
| `Quota.EveryHourWithinLimit` | internal/worker/manager.go:61-118 | over all runs of a manager with a file, with failed and half-failed writes, crashes and restarts, and over one process life without a file, every half-open hour holds at most the limit of admitted workers |
| `Quota.QuotaHoldsIff` | internal/worker/manager.go:61-118 | the bound holds over every run, restarts included, if and only if there is a file or the limit is zero |
| `Quota.RefusedIffHourIsFull` | internal/worker/manager.go:100-108 | without half-failed writes to a file, and with a file or in one process life, a start is refused exactly when the hour before it is full |
| `Quota.NoUnjustRefusalIff` | internal/worker/results.go:73-92 | over all runs that forget nothing, nobody is refused while the hour has room if and only if there is no file or the limit is zero |
| `Quota.WithoutAFileRestartsForget` | internal/worker/results.go:73-92 | for every positive limit a manager without a file admits one more than the limit in an hour with a restart |
| `Quota.HalfFailedWritesRefuse` | internal/worker/results.go:73-92 | for every positive limit a write that reached the file but was reported failed takes a place after a restart |
| `EventStream.SplitLine` | internal/provider/sse.go:67-87 | one scanner step over the bytes at hand |
| `EventStream.ReadEventStream` | internal/provider/sse.go:16-65 | the scan and event loop over reads of any sizes, the last of which may report the end as well, equals parsing the stream as one string |
| `EventStream.LinesMean` | internal/provider/sse.go:44-53 | a data field adds its value, without one leading space, unless that passes the limit; comments and fields of other names change nothing |
| `EventStream.JointEndMattersIff` | internal/provider/sse.go:29-31 | whether the last bytes come with the end or before it changes the outcome if and only if the last line fills the buffer to the brim |
| `EventStream.ParseInvertsPrint` | internal/provider/sse.go:16-65 | any CR-free payloads printed with LF, CRLF or CR are delivered exactly, minus the end markers |
| `EventStream.CutEventIsAnError` | internal/provider/sse.go:55-64 | complete events are delivered, an event cut off before its blank line is an error and never delivered |
| `EventStream.CutWordIsSilent` | internal/provider/sse.go:44-47 | an event cut off within its first word leaves no trace |
| `EventStream.BomIsSkippedOnce` | internal/provider/sse.go:25-28 | a byte order mark is skipped at the start of the stream |
| `EventStream.BomIsTextLater` | internal/provider/sse.go:25-28 | and not before a later line, which it hides |
| `BoundedOutput.Buffer.Write` | internal/sandbox/output.go:18-41 | head and tail stay the beginning and the end of the stream |
| `BoundedOutput.Buffer.TakeSnapshot` | internal/sandbox/output.go:43-54 | the snapshot is the specified function of the stream |
| `BoundedOutput.WriteAll` | internal/sandbox/output.go:18-54 | for every split of a stream into writes the snapshot depends only on the whole stream |
| `BoundedOutput.SnapshotMeaning` | internal/sandbox/output.go:43-54 | the whole stream, or prefix, marker and suffix of total length exactly the limit with every byte kept or counted as dropped |
| `BoundedOutput.SnapshotPanicsIff` | internal/sandbox/output.go:43-54 | the slice expressions fail exactly when the stream is longer than a limit that is shorter than the marker |
| `SessionStore.SessionObject.Save` | internal/store/store.go:33-55 | compare and swap of the whole session: the file then holds the object's content with a new stamp |
| `SessionStore.SessionObject.Claim` | internal/store/store.go:89-112 | the same, with a new owner epoch and nothing else changed |
| `SessionStore.WritesOnlyOverWhatWasSeen` | internal/store/store.go:67-78 | a write goes through if and only if its object stands on the content in the file; a stale object is refused |
| `SessionStore.WritesAreWhatWasHeld` | internal/store/store.go:33-55 | what the file holds after a write is what the writing object held |
| `SessionStore.RevisionsCountWrites` | internal/store/store.go:38-49 | every write raises the revision by one, and epochs never fall |
| `SessionStore.ClaimEvictsOthers` | internal/store/store.go:89-112 | after a claim no object that stood on the old content can write |

## Left out

- Scheduler.SchedulerObject.TrySubmit: a missing conversation or text and an unknown policy name are refused before the modelled part; jobs arrive with a conversation.
- SchedulerSafety.NothingStranded: no order between injected and queued messages is claimed; unconsumed injected messages go behind the queue (internal/scheduler/scheduler.go:244). A paused lane without an approval at its head may wait for ever; SchedulerApprovals says when a waiting approval does.
- BatchLedger.LedgerIsExact: requires that every resumption that finds an empty journal starts from the ledger on disk. The code also resumes inside the process that failed, where this can be false; ResumeIsExactIff gives the exact condition and StaleMemoryIsSaved an instance.
- BatchMeaning.RiskyCallsRunOnlyWithConsent: it and its neighbours suppose that the calls of a batch have distinct identifiers, which the engine demands of every answer before it runs one (internal/runtime/engine.go:258).
- RegistryRuns.TrimmedUpdatesKeepOthers: requires trimmed names. The code compares owners under the name as written and registers under the trimmed one; ForeignBindings gives the exact condition and PaddedNameTakesABuiltin an instance.
- EventStream.ReadEventStream: the 32 MiB limit on the whole stream and errors of the event handler are not modelled, and neither are reads that bring nothing.
- EventStream.ParseInvertsPrint: payloads must leave room for their field name and line ending within the event limit.
- Quota.EveryHourWithinLimit: for managers with a result file, or within one process life. Without a file the quota is per process; QuotaHoldsIff gives the exact condition.
- RepairMeaning.InterruptedLedgerIsRepaired: stated for ledgers with calls on assistant messages and IDs everywhere; RepairedIsClosedIffShaped covers all others.
- ToolBatch.BatchAgent.ExecuteToolBatch: a batch that begins anew and whose writes do not fail; BatchRuns interleaves failing writes, crashes and resumptions. The epoch and revision stamped into a continuation, lower bounds that a resumption checks, are not modelled.
- GatewaySafety.ReplyIffCompleted: it and the results on records and sends suppose channel names without a colon and no channel called "worker", so that event and summary identifiers are apart; RepliesAndSummariesAreDisjoint gives the exact condition.
- BuildChecked.RunCurator: a store that cannot be opened or read is one case; steps are the list of actions, and archive references are only well-formed or not.
- BuildChecked.BuildPrompt: limits arrive validated, and cancellation of the context is not modelled; a counter is a function, and may fail. The curator's control prompt, its search, read, memory and retrieve tools and the size limits of its state text change nothing here and appear as one action.
- Gateway.GatewayObject.Publish: the wait of a startup replay for a free slot is not modelled; a full gateway answers as it does to a live event.
- Repair.CloseInterruptedExchanges: added receipts carry no creation time.
- Facts.ApplyCandidate: keys fold ASCII case only, and the length bound and the sensitive-text filter are one input flag per candidate.
- IndexedBatch.RunIndexedBatch: goroutines of one group are represented by their results; the cancellation that siblings can observe is not modelled, and tool capabilities do not change during a batch.
- HubQueue.HubObject.TryPost: which of several queues a message waits in is not modelled, and an unknown outlet or a missing target is one flag.
- Digests are modelled by what they digest, JSON and SHA-256 by equality of values, random identifiers by freshness; revisions, generations and epochs do not wrap around.
- A durable update is one atomic step on the file that may also take effect and be reported as failed; file locking, temporary files and directory syncs (internal/durable/file.go) are this assumption.
- A lease is an exclusive token that ends with its holder.
- Message contents are those after redaction, which is assumed idempotent; truncation of long results into artifacts, checkpoints and task files are not modelled.
- Tool batches that are not durable, the wording of errors, traces, timestamps and retry delays are not modelled.
- The registry's parallel maps are one map of definitions; schema compilation is one flag per definition.
- HTTP, websocket and webhook adapters, MCP sessions, process groups, sandboxes, worktrees, the command line and the terminal interface are I/O or foreign code.
- BM25 ranking, tokenizers, floating-point relevance and the fast-path threshold computation are abstract inputs.
- Path resolution in the workspace rests on the operating system.
