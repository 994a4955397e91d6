# Verisync: the reconciliation worker and the stateless reconcile tool, modelled and proved

Verisync compares what a payment gateway says about an order with what the merchant's
records say, and moves a per-order pointer (`orders_state.status`) to where the two leave it.
Consumers, a fast recheck runner and a fallback sweep share one Postgres store, interleave
freely and may die between any two transactions. A second engine, the stateless tool, replays
two exported files in memory and reports a verdict per order. This project models both and
proves, for every run and every input, what they promise.

## How it is laid out

| Layer | Files | Content |
|---|---|---|
| Values and decisions | Models, Text, Correlate, Compare, Actions, Engine | the pure decision layer, branch for branch |
| What decisions mean | Drift, DecisionTable, ViewFold | each drift and each action characterised; the stored view as a fold and as a summary of the accepted events |
| Codecs and ids | Json, Ordering, ViewCodec, Digits, AuditIds | stored view text, decimal text, the worker's own audit ids |
| The store | Tables, Recheck, Sweep, StateStore, Runners, DelayQueue, Idempotency, Consumer | every guarded statement as a function on the tables, and the classes that update them in place, each method proved equal to its function |
| The protocol | Protocol, Components | the system as a state machine; each component call is a run of its steps |
| Proofs over runs | LogFacts, StoreInvariant, StoreSteps, ConsumerSteps, SweepSteps, ProtocolInvariant, RunTheorems, CorrectionWindow, CrashRecovery, Duplicates, Deadlines | the inductive invariant, one lemma per step, the theorems, and what each transaction does to deadlines, queue and records |
| The stateless tool | Money, AmountText, Parse, ParsedRows, Normalize, Rows, Entries, Verdicts, VerdictCases, FinalRecords, ReconcileTool, ReconcileLaws, ReportRows, Refinement | cells to rows to events to verdicts, each result read off the two files, and the refinement of the worker |
| The dashboard | Dashboard | the order counts on one snapshot |

A step of the protocol is one transaction. A consumer's transaction is split into its reads and
its writes, because under READ COMMITTED others run in between; a recheck is split into claim,
read and finish. A step that is not possible leaves the state alone, so every sequence of steps
is a run, and a theorem about all runs is a theorem about all sequences. Any number of recheck
agents hold their own `(order, token, decision)`; a step forgets a consumer, an agent or a
pre-filter key at any time.

## Assumptions

- One consumer at a time works on an order: the topic is keyed by order id
  (verisync_architecture_plan.md:36). Rechecks and sweeps only update rows that exist.
- `NOW()` is a clock that strictly increases from one writing transaction to the next, and may
  jump forward at any time.
- A claim token is fresh. It is modelled as the claim's position in the history of claims and
  written in decimal where the code writes a UUID.
- Event ids from outside never begin with `system:`.
- `max_reclaim_retries` is at least 1.
- Instants are integers (microseconds); the ISO text of an instant is an opaque injective form
  (`Json.JTime`). Upper-casing is that of ASCII letters. Digits are the ASCII ones.
- Each SQL statement is atomic with its WHERE guard.

## What turned out not to hold

- CONSISTENT ("both sides agree") is a statement about the moment the sides agreed, not about
  the final records: once an order has resolved naturally the terminal lock lets nothing but a
  reversal through. `FinalRecords.ConsistentMayEndAtOdds` is a report that shows it (captured,
  paid, cancelled by the merchant). `FinalRecords.ConsistentAtTheEndIff` is the exact condition,
  `FinalRecords.ConsistentReportIff` the same for rows, and `FinalRecords.LockedAgreementHoldsIff`
  says it from the moment of agreement.
- A correction does not rule out a reversal in the log: `CorrectionWindow.CorrectionOverReversalIff`
  says exactly when both stand, and `CorrectionWindow.CorrectionOverReversal` that it happens.
- `to_paise` documents an exact conversion, but the multiplication by 100 is done in 28-digit
  decimal arithmetic. Refusals are always rightful (`Money.RefusedCellIsRightful`), accepted
  amounts are exact under the condition `Money.AcceptedCellIsExactIff` states, 28 significant
  digits are always safe (`Money.AtMost28DigitsIsExact`), and `Money.LongAmountIsRounded` is a
  text that is accepted though it is not exact.
- A message whose bytes are not text, or whose time no datetime can hold, is never committed and
  never filed for review: its handling raises, and it is delivered again
  (`Consumer.ReconciliationWorker.HandleMessage`).
- A stored view with an empty order id reads back under the id it is looked up by
  (`ViewCodec.RoundTrip`); no order of the worker has one.
- The log may carry an APPLY_AUTOCORRECT row from a consumer that moved no pointer
  (worker/state.py:329-331); claims are therefore accounted against rows whose source is the
  worker itself, not against decision names.

## Model

| member | source | states |
|---|---|---|
| RunTheorems.RowsWellFormed | worker/state.py:91-203 | In every reachable state: a claim token iff PROCESSING; PENDING_RECHECK and PROCESSING always carry a deadline and budget left; a resolved or disputed row carries no deadline; DEAD_LETTER means the budget is spent exactly |
| RunTheorems.ClaimAccounting | worker/recheck.py:171-231 | Claims ever granted on an order = rows the worker logged about it + 1 if PROCESSING, so every claim is settled by exactly one log row and no system insert is swallowed; and never more claims than max_retries over any run |
| RunTheorems.LogIsWellFormed | worker/state.py:76-86 | In every reachable state no id is logged twice, every logged event stands under its own id and order, and every row the worker wrote about its own doing records a transition out of PROCESSING |
| RunTheorems.StoredViewIsReplay | worker/state.py:262-270 | The stored view, decoded, equals the fold of the engine over the logged events, whatever claims, rechecks and sweeps interleave; every pointer has a view |
| RunTheorems.CorrectionIsJustified | worker/recheck.py:61-86 | An order is RESOLVED_AUTOCORRECTED only if a log prefix read after its last claim has a capture as the gateway's last accepted word, no accepted reversal id, and a merchant record pending or failed |
| CorrectionWindow.CorrectionOverReversalIff | worker/recheck.py:139-169 | In every reachable state a correction stands over an accepted reversal in the log if and only if one was logged after the recheck read the log and before it finished; none lies earlier, none later |
| CorrectionWindow.CorrectionOverReversal | worker/state.py:116-124 | And it does happen: a reversal logged under a claim whose decision is to correct is kept in the log, yet the order ends corrected |
| RunTheorems.StepMovesRow | worker/state.py:91-203 | Every way a pointer row can change in one step of any participant, and that claims take the next token |
| RunTheorems.TerminalLock | decision/actions.py:58-72 | Over any continuation of any reachable state a settled order stays exactly as it is or becomes DISPUTED, and a DISPUTED row never changes, even when a consumer applies a decision made on a stale read |
| RunTheorems.RetriesNeverFall | worker/state.py:162-203 | retry_count never decreases over a run and a pointer never disappears |
| RunTheorems.DeadlineNeverRecedes | worker/state.py:91-114 | As long as an order stays pending, no number of repeat detections moves its deadline later |
| RunTheorems.OneReviewPerDeadLetter | worker/recheck.py:203-225 | An order has exactly one dead_letter review row if it ever entered DEAD_LETTER, and none otherwise |
| RunTheorems.SettledForever | worker/state.py:142-173 | Once a claim is finished or reclaimed its token is never in any row again, and any later completion or re-arm with it, on any order and under any decision, changes no table |
| RunTheorems.FinishSettles | worker/recheck.py:174-201 | Whether or not it still held its claim, an agent's finish leaves its token settled, so of any number of finishes with one token at most one has an effect |
| RunTheorems.ReclaimSettles | worker/state.py:192-203 | A reclaim settles the claim it takes away |
| ProtocolInvariant.DoKeeps | worker/recheck.py:139-241 | Every step of every participant keeps the invariant of the store and of what each participant holds |
| ProtocolInvariant.RunKeeps | worker/recheck.py:139-241 | Every run keeps the invariant |
| StoreSteps.ClaimKeeps | worker/state.py:348-352 | A claim keeps the store invariant and grants a token no row ever had |
| StoreSteps.FinishKeeps | worker/recheck.py:171-241 | Finishing a held claim keeps the invariant and writes one row, one log row recording the transition that happened and, at the ceiling, one review row; finishing one no longer held changes nothing |
| StoreSteps.FinishJustified | worker/recheck.py:61-86 | A finish that corrects rests on the evidence of the log it read |
| ConsumerSteps.ApplyKeeps | worker/state.py:253-331 | A consumer's write keeps the invariant even when the row moved since it was read |
| SweepSteps.ReclaimEachKeeps | worker/sweep.py:44-80 | A batch of reclaims keeps the invariant, changes the listed rows only, and logs each once |
| SweepSteps.ReclaimEachRecords | worker/sweep.py:64-75 | A batch records no event and files one review row per dead letter |
| CrashRecovery.PassProgress | worker/sweep.py:147-157 | One pass of the sweep service over ripe tables leaves every order settled or with one retry more, and settled ones untouched |
| CrashRecovery.RecoveryTerminates | worker/sweep.py:147-157 | With all workers dead, max_retries passes settle every order of any store the invariant allows |
| CrashRecovery.RecoveryHappens | worker/sweep.py:147-157 | Such passes exist for every store the invariant allows: waiting ripens the tables and the rows to sweep can be listed, so recovery is unconditional |
| CrashRecovery.WaitingRipens | worker/sweep.py:100-118 | Waiting long enough always makes every held claim and every armed deadline visible to the sweeps |
| Components.AnyRunRecovers | worker/sweep.py:147-157 | So after any run whatever, stopped anywhere |
| Components.HandlingIsARun | worker/consumer.py:161-230 | Handling one message is the protocol run deliver, commit, mark seen (or one filed review), so all run theorems hold of it |
| Components.ResolvingIsARun | worker/recheck.py:139-169 | Resolving one order is the run claim, read, finish |
| Components.SweepPassIsARun | worker/sweep.py:147-157 | One pass of the sweep service is one reclaim followed by a resolve of each orphan |
| Duplicates.DuplicatesAreAbsorbed | worker/consumer.py:194-206 | Any run with redeliveries, crashes between commit and offset commit, and a pre-filter that forgets anything at any time reaches the same tables as the run without its redundant deliveries |
| Duplicates.DeduplicatedDeliversOnlyNews | worker/state.py:262-265 | The run so reduced delivers no event already logged |
| Consumer.RedeliveryIsVoid | worker/consumer.py:161-230 | Handling a message again, later and whatever the pre-filter forgot, changes no table and pushes nothing, malformed messages included |
| Consumer.HandleKeepsFilterBehind | worker/idempotency.py:32-46 | The pre-filter's keys are always ids the log has, because they are set after the commit |
| Consumer.ReconciliationWorker.HandleMessage | worker/consumer.py:161-230 | The new tables, pre-filter and queue for every kind of message; the offset may be committed unless the handling raises, and then nothing was written. What that comes to in rows, scores and records: Deadlines.ArmedIsQueued, Deadlines.HandledIsRecorded, Consumer.MalformedIsFiled |
| Deadlines.ArmedIsQueued | worker/consumer.py:209-217 | Handling a message writes no row but its own order's; if it leaves that row pending, the row is armed for now + delay or its earlier deadline and the order is queued at the earlier of its old score and now + delay; otherwise, and for every other order, the queue is as it was |
| Deadlines.HandledIsRecorded | worker/state.py:253-331 | A new event is logged with all it says, and exactly a decision that flags files a review row, once per event |
| Consumer.MalformedIsFiled | worker/consumer.py:232-262 | A message that yields no event changes nothing but the review queue: one row under the event id it names, or else its own place, with the order id it names |
| Consumer.SyntheticIdsDiffer | worker/consumer.py:254 | Topic, partition and offset can be read off a synthetic id, whatever the topic is called |
| Consumer.BothMalformedAreFiled | worker/consumer.py:232-262 | Two messages at different places that name no event both get their row |
| Consumer.RaisesIff | worker/consumer.py:161-192 | The handling raises exactly for bytes that are not text and for usable envelopes with an integer time outside the years 1 to 9999 |
| Consumer.ReconciliationWorker.ReconcileEvent | worker/reconcile.py:48-71 | Read, evaluate, apply in one transaction, equal to the protocol's own composition |
| Idempotency.InMemoryIdempotencyFilter.MarkSeen | worker/idempotency.py:55-65 | The key set gains exactly the id |
| StateStore.PostgresStateStore.ReadState | worker/state.py:233-251 | The row and the decoded view of one order |
| StateStore.PostgresStateStore.InsertAudit | worker/state.py:273-289 | One log row, unless the id is taken; reports which |
| StateStore.PostgresStateStore.EnqueueReview | worker/state.py:333-343 | One review row, unless its event id is filed |
| StateStore.PostgresStateStore.ApplyPointer | worker/state.py:291-331 | The pointer effect of each action under its guard, and whether a row was hit |
| StateStore.PostgresStateStore.Apply | worker/state.py:253-271 | Log, view and pointer, or nothing at all for an event already logged |
| StateStore.PostgresStateStore.ClaimRecheck | worker/state.py:348-352 | A pending row becomes PROCESSING under a fresh token, any other is refused |
| StateStore.PostgresStateStore.CompleteClaim | worker/state.py:354-361 | A row is completed only under its own token |
| StateStore.PostgresStateStore.RearmOrDeadletter | worker/state.py:363-383 | A row is re-armed or dead-lettered, with one retry more, only under its own token |
| StateStore.PostgresStateStore.ReclaimStuckProcessing | worker/state.py:409-419 | Exactly the rows in PROCESSING stamped longer ago than the timeout with budget left are reclaimed, at the cost of a retry and keeping their deadline, each listed once; every younger claim and every other row stays as it was |
| StateStore.PostgresStateStore.ListOrphanedPending | worker/state.py:403-407 | At most `limit` orders pending past their deadline by more than the grace period, earliest first, none left out unless the list is full of earlier ones |
| Runners.RecheckRunner.ResolveOrder | worker/recheck.py:139-169 | The whole new store and queue after claim, re-read, decision and finish: the order is queued exactly if its row was pending and is again, at the deadline of the row |
| Runners.RecheckRunner.Apply | worker/recheck.py:171-241 | The finish of a claim: tables and new deadline, which is the row's, and only of a held claim |
| Deadlines.FinishedClaim | worker/recheck.py:171-241 | The row a recheck of a held claim leaves: settled as the view says, or, inconclusive, dead-lettered or armed at now + delay, or at the finish + delay where the merchant is unknown; the deadline returned is the row's |
| Deadlines.FinishedEntry | worker/recheck.py:203-241 | The one log row of a finish, whole: id, actor, the action decided or that retries are exhausted, direction, and the transition that happened |
| Runners.RecheckRunner.RunOnce | worker/recheck.py:128-137 | Exactly the due entries are resolved, in due order; the whole new store and queue |
| Runners.StuckProcessingSweep.RunOnce | worker/sweep.py:44-80 | Every claim older than the timeout with budget left is taken and recorded, once; every younger one is kept |
| Deadlines.OnlyOldClaimsAreTaken | worker/state.py:192-203 | A pass of the stuck sweep changes exactly the rows in PROCESSING for longer than the timeout with budget left, and how; every younger claim keeps row and token |
| Deadlines.ReclaimWaits | worker/state.py:192-203 | In any state of any run, a reclaim step that changes a row found its claim older than the timeout |
| Deadlines.ReclaimIsTold | worker/sweep.py:50-75 | The log row of a reclaim, whole: put back or given up, and a review row exactly for the latter |
| Runners.PendingRecheckSweep.RunOnce | worker/sweep.py:100-118 | The orphans are driven through the runner, in order, until the caller says stop: how many, and the whole new store and queue |
| Runners.SweepService.RunOnce | worker/sweep.py:147-157 | Stuck rows first, then, unless told to stop, the orphans of the tables that leaves: the whole new store and queue |
| Runners.DrivenQueue | worker/recheck.py:128-169 | Driving orders leaves every other queue entry alone, and an order just driven is queued exactly if its claim was granted and its row armed again, at its row's new deadline |
| Runners.QueueFollowsRows | worker/recheck.py:128-169 | After driving a list of orders, each of them is queued exactly if its row was pending before the pass and is after it, at the deadline of the row |
| DelayQueue.InMemoryDelayQueue.Push | worker/delayqueue.py:70-75 | The queue after a push that may only pull a deadline in, or that replaces it |
| DelayQueue.InMemoryDelayQueue.Remove | worker/delayqueue.py:82-83 | The entry is gone and no other |
| DelayQueue.InMemoryDelayQueue.Due | worker/delayqueue.py:77-80 | The first `limit` due entries by score then id, nothing due left out unless the list is full of earlier ones |
| DelayQueue.DueIsUnique | worker/delayqueue.py:77-80 | There is only one such list |
| DelayQueue.ScoreIsEarliest | worker/delayqueue.py:70-83 | Over any history, an order's score is the minimum pushed since its last removal or forced push, and it is queued exactly while there is such a push |
| ViewFold.FoldIsSummary | decision/correlate.py:27-63 | The stored view is: last status of each side, first charge amount and currency, whether the payment ever settled, all reversal ids, over the accepted events, plus every id seen |
| ViewFold.RejectedEventsDoNotInterfere | decision/engine.py:48-51 | Deleting any events that failed correlation leaves the others accepted with the same drift and the view equal except for the ids seen |
| ViewFold.AcceptedChargesAgree | decision/correlate.py:89-114 | All accepted gateway charges state the one amount of the view, all accepted gateway currencies its currency up to letter case |
| ViewFold.ViewOnlyGrows | decision/correlate.py:36-63 | Amount and currency are write-once, `settled` never resets, reversal and seen ids only grow |
| ViewFold.SafeRecheckIff | decision/compare.py:26-64 | A recheck finds safe drift exactly when the accepted events are a final capture, no reversal, and a merchant record pending or failed |
| ViewFold.PersistedViewIsAbsorb | decision/engine.py:37-52 | The persisted view does not depend on the pointer, the time or the delay |
| ViewCodec.RoundTrip | worker/viewcodec.py:25-82 | Deserialize after serialize is the identity, but for an empty order id |
| ViewCodec.SerializeIsInjective | worker/viewcodec.py:25-39 | No two views are stored alike |
| Ordering.Sorted | worker/viewcodec.py:25-39 | The sorted listing of a set: strictly increasing, the same members |
| Ordering.LessIff | worker/delayqueue.py:77-80 | One text comes before another exactly when they first differ in a smaller character, or it ends first |
| AuditIds.IdsAreInjective | worker/sweep.py:50-63 | Different claims and different reclaims get different audit ids, whatever characters the order ids hold |
| AuditIds.KindsDiffer | worker/recheck.py:61-86 | A recheck's id is never a sweep's |
| Normalize.GatherRazorpayFields | worker/normalize.py:92-121 | The gathering loop takes amount and currency from one entity only: payment, else refund, else dispute, else order |
| Normalize.UsableIff | worker/normalize.py:134-173 | An envelope becomes an event exactly when it names itself, an order and one of the two providers |
| Normalize.NormalizedIsOk | worker/normalize.py:134-173 | Every event let through is fit for the store: non-blank ids, a provider source, no empty currency |
| Normalize.EventTellsEnvelope | worker/normalize.py:62-77 | An event carries the id, order, type and provider of its envelope, and is dated by the provider, else by receipt, else now |
| Normalize.GatewayEventTellsBody | worker/normalize.py:92-121 | A gateway event states its payment's status, and amount and currency of the one main entity of its body |
| Normalize.GatewayEventTellsReversal | worker/normalize.py:104-114 | It is a refund if its body holds one, else a dispute if it holds one, with that entity's id and status |
| Normalize.MerchantEventTellsBody | worker/normalize.py:124-131 | A merchant event states status, amount and currency of its body and is no reversal |
| Refinement.ToolRefinesWorker | reconcile_tool/run.py:211-242 | For any events of one order, the worker run on them and rechecked until not pending rests with no pointer, in DEAD_LETTER, or in the tool's status, as the tool ends with none, pending, or otherwise; for every retry budget |
| Refinement.RecheckOutcome | worker/recheck.py:61-86 | What a recheck decides is a function of the view alone |
| Verdicts.ReplayMeaning | reconcile_tool/run.py:211-232 | What the replay's flags and status say of the event sequence: clean, or agreed |
| Verdicts.AutoCorrectIff | reconcile_tool/run.py:244-258 | AUTO_CORRECT exactly when every event was accepted, the sides were never at odds nor agreed, and the events finally show a capture, no reversal, and a merchant record pending or failed |
| Verdicts.ConsistentIff | reconcile_tool/run.py:244-258 | CONSISTENT exactly when the sides came to agree after a clean drift and nothing was reversed since, or never drifted and agree at the end with both present |
| FinalRecords.ConsistentAtTheEndIff | decision/actions.py:58-72 | A CONSISTENT verdict describes the final records if and only if the last words of the two sides, among the events that state the order's charge, agree |
| FinalRecords.UnlockedConsistentIsFinal | decision/actions.py:58-72 | It always does unless the order was already agreed, and so locked, when its last event came |
| FinalRecords.LockedAgreementHoldsIff | decision/actions.py:58-72 | For an order agreed and locked since: the sides agree at the end if and only if their last words after the agreement, or where there are none at the agreement, still match |
| FinalRecords.SilenceKeepsAgreement | decision/actions.py:58-72 | An agreement after which neither side stated a status holds at the end |
| FinalRecords.AgreedOnce | reconcile_tool/run.py:244-258 | An agreed order has a moment of agreement, after a clean drift, and no reversal since |
| FinalRecords.FittingAreAccepted | decision/correlate.py:79-124 | Which events count is decided by what they say alone: same currency, and same amount unless a reversal, as the first that stated one |
| FinalRecords.ConsistentReportIff | reconcile_tool/run.py:155-290 | The same for the rows of a report |
| FinalRecords.ConsistentMayEndAtOdds | reconcile_tool/run.py:155-290 | For every charge: a captured row with a paid and then a cancelled merchant row is reported CONSISTENT although the sides end at odds |
| VerdictCases.DisputedIff | reconcile_tool/run.py:244-258 | DISPUTED exactly when an accepted event reversed the payment of an open order, or any reversal came after the order was settled |
| VerdictCases.CorrelationFailedIff | reconcile_tool/run.py:244-258 | CORRELATION_FAILED exactly when, not disputed, an event contradicted the order while it was open |
| VerdictCases.FlaggedRiskyIff | reconcile_tool/run.py:244-258 | FLAGGED_RISKY exactly when, neither disputed nor contradicted, an event put the sides at odds while the order was open |
| VerdictCases.UnresolvedIff | reconcile_tool/run.py:244-258 | UNRESOLVED exactly when the events are clean and either drifted without the evidence for a correction, or never drifted and do not end in agreement of two sides present |
| Verdicts.VerdictMatchesWorker | reconcile_tool/run.py:211-258 | The verdict and the worker's resting pointer determine each other as listed, whatever the worker's delay and budget |
| Entries.ArrangedIsTheSort | reconcile_tool/run.py:204-209 | Sorting by (time, file, place) is the stable sort by time |
| Entries.SortByKey | reconcile_tool/run.py:204-209 | A permutation sorted by the key |
| ReconcileTool.ReplayEntries | reconcile_tool/run.py:211-232 | The replay loop computes the replay of the entries' events |
| ReconcileTool.ReconcileOrder | reconcile_tool/run.py:202-289 | One order's result is a function of that order's own rows; which values it holds: the ReportRows lemmas below |
| ReconcileTool.Reconcile | reconcile_tool/run.py:155-290 | One result per distinct order id, in the order first seen, each the function of that order's own rows alone |
| ReportRows.ReportedStatuses | reconcile_tool/run.py:178-195 | Each result carries, of each file, the status of the row of its order that no later row of the order follows, and none if there is no row |
| ReportRows.ReportedAmount | reconcile_tool/run.py:281-289 | The amount is the one of the first charge that fits the order, in replay order; else of the order's first gateway row; else the first a merchant row gives |
| ReportRows.ReportedCurrency | reconcile_tool/run.py:178-195 | The currency is the first one stated, gateway file first |
| ReportRows.ReportedCheck | reconcile_tool/run.py:223-228 | The check named is the one failed by the first event to contradict the order while it was open, and there is one exactly if an event did |
| ReportRows.ReportedInOrder | reconcile_tool/run.py:172-195 | Results stand in the order in which their orders first occur, gateway file first |
| ReportRows.ReplayOrder | reconcile_tool/run.py:204-209 | Every row is replayed once: by time, then gateway before merchant, then as in the file; one missing time anywhere leaves only the last two |
| ReconcileLaws.OrdersAreIndependent | reconcile_tool/run.py:165-209 | Restricting both files to one order's rows leaves exactly that order's result |
| ReconcileLaws.RowsAreConserved | reconcile_tool/run.py:178-195 | The orders reported account for every row of both files exactly once |
| ReconcileLaws.RowsAreReplayedSorted | reconcile_tool/run.py:204-209 | An order's rows are replayed as a permutation sorted by the chosen key |
| ReconcileLaws.TrailFollowsRows | reconcile_tool/run.py:216-242 | Each row leaves one step in its order's trail, in replay order; only the simulated recheck adds one |
| ReconcileLaws.TrailTellsDecisions | reconcile_tool/run.py:216-242 | Each step tells the engine's action on its row's event, given what the earlier ones left, and the status after it; a recheck is simulated exactly for an order left pending, and its step tells what the view decides |
| ReconcileLaws.Summarize | reconcile_tool/run.py:296-305 | Counts and paise per verdict, and the total is the sum over all results |
| ReconcileLaws.OneMoreResult | reconcile_tool/run.py:296-305 | Each result adds one and its amount, if any, to its own verdict's bucket and to the grand total, and to nothing else |
| ReconcileLaws.BucketsAddUp | reconcile_tool/run.py:296-305 | The verdicts partition the results: counts and amounts add up |
| ReconcileLaws.ReportMatchesWorker | reconcile_tool/run.py:155-290 | Feeding an order's rows to a worker that never saw the order rests its pointer where the reported verdict says |
| Rows.GatewayRowBecomesEvent | reconcile_tool/run.py:96-114 | No accepted gateway row is lost: its envelope is usable and the event keeps order id, amount and currency |
| Rows.MerchantRowBecomesEvent | reconcile_tool/run.py:117-120 | The same for merchant rows |
| Rows.RowIdsAreInjective | reconcile_tool/run.py:96-120 | Event ids made from row numbers never collide |
| Parse.ParseGateway | reconcile_tool/parse.py:289-355 | The accepted rows and the reports on the others, both in file order, or the refusal of the whole input |
| Parse.ParseMerchant | reconcile_tool/parse.py:358-414 | The same for merchant files |
| Parse.GatewayReasons | reconcile_tool/parse.py:296-350 | A row is reported exactly when something is wrong with it, with everything that is |
| Parse.GatewayRowsLandOnce | reconcile_tool/parse.py:296-355 | Every raw row is in exactly one of rows and invalid, under its own number |
| Parse.MerchantRowsLandOnce | reconcile_tool/parse.py:365-414 | The same for merchant files |
| Parse.AcceptedNumbersDiffer | reconcile_tool/parse.py:296-355 | No two accepted rows of a file share a number |
| Parse.GatewayRowsInOrder | reconcile_tool/parse.py:296-355 | Accepted rows keep the order of the file |
| Parse.MerchantRowsInOrder | reconcile_tool/parse.py:365-414 | The same for merchant files |
| Parse.AcceptedGatewayRowReachesEngine | reconcile_tool/parse.py:296-355 | From cell to event: own order id, exact amount, own currency or INR, own time; a payment with the status of its cell unless it holds a refund or dispute id, and then that reversal with that id |
| Parse.AcceptedMerchantRowReachesEngine | reconcile_tool/parse.py:365-414 | The same for merchant rows, with the merchant status and no reversal |
| ParsedRows.GatewayAcceptedIff | reconcile_tool/parse.py:296-355 | Which gateway rows are accepted, in terms of the cells: an order id, a reversal id or a known status, an amount that reads, a three-letter currency if any, a time that reads if any |
| ParsedRows.MerchantAcceptedIff | reconcile_tool/parse.py:365-414 | The same for merchant rows, whose amount may be absent |
| ParsedRows.GatewayReasonsIff | reconcile_tool/parse.py:296-350 | Each reason is reported exactly when it holds of the cells; a reversal row needs no status |
| ParsedRows.MerchantReasonsIff | reconcile_tool/parse.py:365-410 | The same for merchant rows |
| ParsedRows.GatewayRowSays | reconcile_tool/parse.py:318-354 | Every field of an accepted gateway row in terms of its cell: trimmed ids, refunded before disputed before the status found, exact amount, capitalised currency or INR, time |
| ParsedRows.MerchantRowSays | reconcile_tool/parse.py:365-414 | The same for merchant rows |
| ParsedRows.GatewayCellsReachEngine | reconcile_tool/run.py:96-114 | What an accepted gateway row tells the engine, from its cells alone |
| ParsedRows.MerchantCellsReachEngine | reconcile_tool/run.py:117-120 | The same for merchant rows |
| ParsedRows.RejectedRowIsNamed | reconcile_tool/parse.py:348-350 | A rejected row is reported under its number and whatever order id it holds |
| AmountText.AmountIff | reconcile_tool/parse.py:153-163 | A text is an amount exactly when it is digits with perhaps a fraction, or the same with commas between groups of three |
| AmountText.PlainAmount | reconcile_tool/parse.py:153-163 | A plain text is the number its digits make, shifted by its fraction |
| AmountText.GroupedAmount | reconcile_tool/parse.py:153-163 | A grouped text is that number without its commas |
| AmountText.RefusedAsNoNumber | reconcile_tool/parse.py:146-165 | Which cells are refused as not a number and as not finite |
| AmountText.ExactPaiseIff | reconcile_tool/parse.py:164-173 | Exact conversion gives p exactly when the number is not negative and is p paise; negative and fractional ones are refused as such |
| Money.RefusedCellIsRightful | reconcile_tool/parse.py:144-173 | Every refusal of an amount is one exact arithmetic makes too, for the same reason |
| Money.AcceptedCellIsExactIff | reconcile_tool/parse.py:168-173 | An accepted amount is exact if and only if it was given in paise or its number times 100 has nothing but zeros beyond the 28th digit |
| Money.LongAmountIsRounded | reconcile_tool/parse.py:168-173 | The text 100000000000000000000000000.001 is accepted as rupees although it is no whole number of paise |
| Money.AtMost28DigitsIsExact | reconcile_tool/parse.py:144-173 | With at most 28 significant digits the conversion is exact or a refusal |
| Money.RupeesRoundTrip | dashboard/assets/tool.js:66-69 | What the dashboard prints as rupees the parser reads back to the same paise, for every amount below 10^28, so for every integer a double holds exactly |
| Money.FloatingFloorIsExact | dashboard/assets/tool.js:66-69 | The printer's floating-point floor is the integer quotient for every integer a double holds exactly |
| Dashboard.CountsAddUp | dashboard/queries.py:30-56 | On one snapshot: no orphan pointer, tracked = no action needed + the sum over statuses, the clamp at zero never acts, and the resolved and in-progress totals count the orders in those statuses |
| Dashboard.TornCountsAreClamped | dashboard/queries.py:30-56 | On any counts, even fetched at different moments: the parts fall short of the whole never, and exceed it only when orders without action are clamped at none |
| Dashboard.DashboardAddsUp | dashboard/queries.py:30-56 | So after any run |

## Left out

- Human-readable reasons, labels, details and recommended-action texts: presentation only.
- FastAPI apps, HTML, the rest of the JavaScript, Kafka, Redis and psycopg clients, signal handling, polling loops and logging: plumbing around the steps modelled.
- Signature checking and write tokens of the ingestion and tool endpoints: access control.
- CSV and JSON tokenising, header aliases, synonym tables, currency-sign stripping, ISO and epoch time parsing: raw cells, looked-up statuses and stripped amount texts are the input.
- lite/, merchant_sim/ and scripts/: drivers over the same core; the lite path is the protocol with an empty queue.
- Postgres locks and snapshots beyond the split of a transaction into reads and writes.
- The logging of an exception inside one order, after which a pass goes on with the next one.
- Redis expiry as such: the protocol may drop any key of the pre-filter at any time.
- out_of_scope_events, the review and decision counts and the activity list of the dashboard: passed through unchanged.
- The two names under which a malformed message is filed, told apart only by why it yields no event, and the details kept with it.
- Stored views with members of the wrong type: reading them back takes the member as absent.
- Failures of Postgres, Redis or Kafka themselves, and JSON beyond the interpreter's limits.
- Decimal exponents beyond the context's limits, which raise instead of converting.
- Sub-second parts of an envelope's `occurred_at` given as a JSON float.
- CrashRecovery.RecoveryTerminates: each pass starts once every deadline and claim is ripe and is not told to stop; a pass that starts earlier is a shorter pass and is covered by the run theorems only.
- ReconcileTool.Reconcile: rows must be ones the parser lets through, as the code relies on; the event of a row is built when the row is filed, not when it is replayed, which makes no difference as both are pure.
- Rows.GatewayRowBecomesEvent: one reading of the time of day serves all rows of a report; it reaches only the last-event times of the view, which no verdict reads.
- Any claim the code does not make: that a recheck waits for its deadline, that a reversal landing under a claim ends as DISPUTED, or anything about two consumers on one order.
