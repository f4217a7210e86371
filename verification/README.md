# DocFactory verification

A Dafny model of the protocols and the arithmetic of DocFactory, a multi-tenant
document pipeline, with proofs over every run, every interleaving and every input.

| module | models |
|---|---|
| `Pipeline`, `Overlap`, `Deliveries`, `Recovery`, `Worker` | the at-least-once pipeline of one document: row, messages, dead letters, handler runs, sweepers, and the handlers as they run |
| `Healing` | the sweeps over a table of documents and the redrive of a dead-letter queue |
| `Budget`, `Pricing` | reserve, settle and release beside the audit log; prices and the two-attempt extraction loop |
| `Resilience` | error classification, bounded retry, circuit breaker |
| `RateLimit` | the token bucket |
| `Drift` | one-pass baseline statistics and the drift verdict |
| `Text`, `Decimals`, `Normalize`, `Canonical` | printers and parsers, canonical records and their stored form |
| `Rules`, `Corruption` | the rule engine and the error injector |
| `Calibrate` | the choice of an operating point |
| `Ingest` | the two entry points and their dedupe |

`dafny verify dfyconfig.toml` checks everything.

A protocol is a step function over a state value; an execution is a sequence of
events, so concurrency is interleaving, and a crash is an event between two
others. What the source updates in place is a class. The handlers, the breaker,
the token bucket, the budget row and the drift row are proved to take exactly
those steps; the sweep over a table and the two entry points are tied to them by
`Healing.ReapOneIsHealerStep` and `Ingest.CallIsRun`. An outcome the source
leaves to the network, the clock, the database's scheduling or the model is a
parameter or an event of its own. Money is whole millionths of a dollar, times
are integers, ratios are reals.

## Where the code differs from what it says

The model follows the code.

- A breaker whose probe ends in a permanent error keeps the probe slot taken
  and refuses every caller from then on (`resilience.py:376-377`):
  `Resilience.WedgeIsReachable`, `PermanentProbeHoldsSlot`, `RecoversIffSlotFree`.
- "Permanent anywhere in the chain wins" does not hold for an outermost
  `TransientError` (`resilience.py:167-180`): `Resilience.ClassifyWrappedRejection`.
- A reservation covers one completion and an extraction may make two, so one
  call can cross the cap (`handlers.py:509-522`, `extraction.py:98-120`):
  `Pricing.TwoCompletionsCanOverrun`. It keeps the cap exactly when the tokens of
  both together are within the estimate (`Budget.SingleCallKeepsCapIffWithin`),
  so always when the first answer is valid and within it (`ValidFirstKeepsCap`).
  The tokens of a first completion are lost if the second call raises:
  `Pricing.RunExtraction`.
- A give-up during a live redelivered run is overwritten by that run's second,
  unguarded status write: a guard that finds the status unchanged writes
  nothing, so the row stays stale under the run (`handlers.py:281`, `305-310`,
  `860-865`): `Pipeline.GiveUpCanBeOverwritten`.
- A crash between routing and task creation is not re-queued by the next
  delivery, which is skipped (`handlers.py:872-876`, `344-352`):
  `Pipeline.TaskIffNotLost`, `LostTaskStaysLost`.
- A rescue sent while the original message waits lets two runs of one document
  overlap, and the second then undoes what followed the first
  (`handlers.py:281`, `305-314`): `Overlap.OverlapUndoesApproval`.
- `dlq_max_redrives` is never read: the healing pass redrives with the default
  bound of two (`healing.py:391-407`, `config.py:127`).
- The reported retry wait can be rounded below the real one
  (`backpressure.py:100-109`): `RateLimit.ReportedWaitWorksIffRoundedUp`.
- Exchanging quantity and unit price on a single-row invoice breaks no rule: a
  product commutes (`corruption.py:146-150`): `Corruption.SingleRowIsUnseen`.
- Row rules on one table overwrite each other's findings (`pipeline.py:513`):
  `Rules.LastRowRuleWins`, `EarlierFailureIsHidden`.
- A rate above 100 % is divided by a hundred again when its stored form is
  normalized (`normalize.py:75`): `Canonical.StoredRecord`, `PrintedRateIsStable`.

## Model

| member | source | states |
|---|---|---|
| `Pipeline.ExecutionIsSound` | apps/worker/docfactory_worker/handlers.py:273-484 | for one run at a time: every interleaving of deliveries, failures, crashes, acknowledgements, deferrals, redrives, sweeps and claims keeps the invariant: row, extraction row, hand-off, text, run phase and sweepers' snapshots agree |
| `Pipeline.StagesHappenOnce` | apps/worker/docfactory_worker/handlers.py:305-314 | for one run at a time: in every reachable state at most one parse-to-extract hand-off was sent, a routed extraction row exists exactly when the status is a routed one, and whatever extract accepts has its text |
| `Pipeline.TerminalLeftIffOvertaken` | apps/worker/docfactory_worker/handlers.py:860-865 | a terminal status is left exactly by the unguarded second status write of a run the reaper has already given up on; every other step keeps the rank |
| `Pipeline.StepOvertakes` | packages/core/docfactory_core/healing.py:254-263 | a run becomes overtaken exactly by a give-up claim made while it stands between its two status writes |
| `Pipeline.NeverOvertaken` | packages/core/docfactory_core/healing.py:239-275 | an execution with no give-up under a live run never has an overtaken run |
| `Pipeline.ProgressIsMonotone` | apps/worker/docfactory_worker/handlers.py:296-308 | for one run at a time: over a whole execution without a give-up under a live run, the rank of the status only rises and a terminal status stays for good |
| `Pipeline.GiveUpCanBeOverwritten` | apps/worker/docfactory_worker/handlers.py:305-310 | for either stage and every configuration with two receives, an execution from ingestion in which FAILED becomes PARSED, or APPROVED, again: the premise of monotonicity is needed |
| `Pipeline.TaskIffNotLost` | apps/worker/docfactory_worker/handlers.py:872-876 | over every execution: a document in review with no run still to create its task has one if and only if no run ended, by a crash or an exception, between its routing commit and its task |
| `Pipeline.LostTaskStaysLost` | apps/worker/docfactory_worker/handlers.py:344-352 | a document in review without its task never gets one in any continuation |
| `Pipeline.TaskCanBeLost` | apps/worker/docfactory_worker/handlers.py:872-876 | for every configuration an execution from ingestion that ends in such a document |
| `Pipeline.RescuesBounded` | packages/core/docfactory_core/healing.py:239-278 | over any execution with any number of sweepers: counted sends are at most give_up_after for the document's life, claims are counted exactly, and two claims are more than stale_after apart |
| `Pipeline.ClaimOutcome` | packages/core/docfactory_core/healing.py:239-278 | a claim that lost its race changes nothing; past the bound it fails the document and sends nothing; otherwise it sends one message, to a handler that accepts the status the row has now |
| `Overlap.NoOverlapIsSingle` | packages/core/docfactory_core/queues.py:45-52 | with any number of runs in flight: an execution in which no delivery finds a run under way is one of the one-run pipeline, so all of the above holds of it |
| `Overlap.StagesHappenOnceWithoutOverlap` | apps/worker/docfactory_worker/handlers.py:305-314 | under that premise: at most one hand-off, at most one task, a routed row exactly for a routed status |
| `Overlap.TerminalLeftWithoutOverlap` | apps/worker/docfactory_worker/handlers.py:860-865 | under that premise: a terminal status is left exactly by the second write of an overtaken run |
| `Overlap.TerminalLeftIffWrittenOver` | apps/worker/docfactory_worker/handlers.py:305-310 | with any number of overlapping runs: a terminal status is left exactly when a run past its gate writes another one |
| `Overlap.RescuesBoundedRegardless` | packages/core/docfactory_core/healing.py:239-278 | with any number of overlapping runs: counted sends at most give_up_after, and two claims more than stale_after apart |
| `Overlap.CountRaisedIffClaimed` | packages/core/docfactory_core/healing.py:233-263 | with any number of runs: reap_count is raised exactly by a claim of a document scanned in one of the four stages a run moves through, still as stale as scanned, that sends or gives up; by one |
| `Overlap.PausedIsNeverCounted` | packages/core/docfactory_core/healing.py:220-233 | over any continuation during which the document stays paused on budget, whatever was scanned before, its rescue count does not move |
| `Overlap.OverlapUndoesApproval` | apps/worker/docfactory_worker/handlers.py:281-314 | for every configuration an execution with two parse runs at once in which an approved document becomes PARSED again and is handed over twice: the premise is needed |
| `Recovery.SweptIffStale` | packages/core/docfactory_core/healing.py:198-210 | a sweep picks a document up exactly when it is in one of the five live statuses and was untouched for longer than the bound, and changes nothing else |
| `Recovery.StrandedIsSwept` | packages/core/docfactory_core/healing.py:197-278 | whatever the runs did: once stale, a live document whose rescues are spent is failed with nothing sent, any other is sent exactly one fresh message, accepted where it goes |
| `Recovery.CountedRescueFailsIffSpent` | packages/core/docfactory_core/healing.py:239-278 | whatever the runs did: a counted rescue of a stale live document ends in FAILED exactly when reap_count has reached give_up_after; until then it sends one accepted message |
| `Recovery.SuccessRaisesRank` | apps/worker/docfactory_worker/handlers.py:277-282 | in any state: an accepted delivery whose run succeeds strictly raises the rank |
| `Recovery.RescueRaisesRank` | packages/core/docfactory_core/healing.py:399-412 | of any document nobody is working on, whatever overlapped before: one deployed sweep (counting past parsing, uncounted for parse and for budget pauses), delivery and successful run strictly raise the rank, unless the rescues are spent |
| `Recovery.NoDocumentIsLost` | packages/core/docfactory_core/healing.py:48-85 | after every execution with any number of runs at once, all of them crashed where they stand: a live document with rescues left is one rescue and successful runs away from approval; one without is failed by its next sweep and nothing is sent |
| `Recovery.CrashKeepsRow` | apps/worker/docfactory_worker/consumer.py:51-69 | when every run crashes the row stays as it was and every message they held is in the queue again |
| `Recovery.EveryExecutionRecovers` | packages/core/docfactory_core/healing.py:48-85 | that way forward is itself an execution: every one that leaves the document live can be continued to APPROVED, or to FAILED if its rescues are spent |
| `Deliveries.HopDescends` | apps/worker/docfactory_worker/handlers.py:643-679 | each delivery, deferral and redrive lowers (deferrals left + redrives left, receives left) lexicographically |
| `Deliveries.FreshPathBounded` | packages/core/docfactory_core/healing.py:352-376 | along any path of one message there are at most max_receive_count * (1 + max_defer_attempts + max redrives) deliveries |
| `Deliveries.PathBoundIsReached` | packages/core/docfactory_core/healing.py:352-376 | and some path of a fresh message is delivered exactly that often, so nothing in the bound is wasted |
| `Deliveries.StepFollowsPaths` | apps/worker/docfactory_worker/consumer.py:47-69 | the paths are the system's, seen from one run: after a step every message was there before, is one hop from one that was, or was newly sent; only the provider-down deferral brings one back unchanged |
| `Deliveries.BagFollowsPaths` | apps/worker/docfactory_worker/consumer.py:47-69 | the same with any number of runs at once, each holding a message of its own |
| `Deliveries.RedriveComesHome` | packages/core/docfactory_core/healing.py:341-376 | a dead-lettered message under its bound comes home with its counter raised and its receives reset, gone from the dead letters if the delete went through; at the bound nothing happens |
| `Deliveries.FuelClosedForm` | apps/worker/docfactory_worker/handlers.py:643-679 | a full message with L laps left, copies left by crashes included, is worth (max_receive_count + 1)^(L + 1) - 1 deliveries |
| `Deliveries.StepSpendsFuel` | apps/worker/docfactory_worker/handlers.py:643-679 | a step delivers at most what its fuel pays for, whichever stages are counted; only a new send, or one of the two re-sends no counter bounds, adds fuel, one full message's each |
| `Deliveries.BagStepSpendsFuel` | apps/worker/docfactory_worker/handlers.py:643-679 | the same of the whole bag of runs: own steps, deliveries beside them and give-ups that mark them |
| `Deliveries.DeliveriesBounded` | packages/core/docfactory_core/queues.py:90-117 | every execution with any number of runs at once delivers a document's messages at most F * (1 + hand-offs + give_up_after + uncounted sweeps + uncounted re-sends) times, duplicates included, where F is (max_receive_count + 1)^(1 + max defers + max redrives) - 1 |
| `Deliveries.HandoffsBounded` | apps/worker/docfactory_worker/handlers.py:311-314 | however many runs overlap, hand-offs are at most F * (1 + give_up_after + uncounted sweeps + uncounted re-sends): each is paid for by a parse delivery of its own |
| `Deliveries.DeliveriesBoundedOutright` | packages/core/docfactory_core/queues.py:90-117 | so deliveries are at most F * (F + 1) * (1 + give_up_after + uncounted sweeps + uncounted re-sends), over every execution |
| `Deliveries.DeliveriesBoundedWithoutOverlap` | packages/core/docfactory_core/queues.py:90-117 | and at most F * (2 + give_up_after + uncounted sweeps + uncounted re-sends) when no two runs overlap |
| `Deliveries.DeferDownIsFree` | apps/worker/docfactory_worker/handlers.py:692-717 | why a provider-down deferral is charged: deliver, defer and acknowledge leave the system as it was but for one more delivery |
| `Worker.Deployment.TouchDocument` | apps/worker/docfactory_worker/handlers.py:202-224 | the refresh of a deferred row: one update that skips terminal rows and leaves the status alone |
| `Worker.Deployment.RecordFailure` | apps/worker/docfactory_worker/handlers.py:896-907 | FAILED is written only on the final attempt; otherwise the row is stamped exactly when the error text is new |
| `Worker.Deployment.DeferIfSaturated` | apps/worker/docfactory_worker/handlers.py:604-679 | defers exactly while saturated and under the bound, re-sending with the counter raised and the receive count reset |
| `Worker.Deployment.DeferWhileProviderDown` | apps/worker/docfactory_worker/handlers.py:692-717 | re-sends with no counter raised |
| `Worker.Deployment.EnterStage` | apps/worker/docfactory_worker/handlers.py:273-282 | the guard accepts exactly the stage's own statuses; an unchanged status writes nothing |
| `Worker.Deployment.FailDelivery` | apps/worker/docfactory_worker/handlers.py:145-197 | a caught failure is recorded, noted again as it is re-raised, and the message stays: whenever the note can be written a live row is stamped, with a new text or not |
| `Worker.Deployment.CommitParsed` | apps/worker/docfactory_worker/handlers.py:305-310 | text and PARSED are committed together |
| `Worker.Deployment.SendExtract` | apps/worker/docfactory_worker/handlers.py:311-314 | exactly one hand-off message |
| `Worker.Deployment.PauseOnBudget` | apps/worker/docfactory_worker/handlers.py:720-734 | BUDGET_EXCEEDED is written and the message is acknowledged; `Worker.ExtractEnds` says so in the row's own fields |
| `Worker.Deployment.StoreInvalidOutcome` | apps/worker/docfactory_worker/handlers.py:436-450 | the raw attempt is stored in a transaction of its own |
| `Worker.Deployment.MarkInvalidOutcome` | apps/worker/docfactory_worker/handlers.py:451-453 | FAILED is written in another, and its failure is swallowed |
| `Worker.Deployment.StoreRouted` | apps/worker/docfactory_worker/handlers.py:860-868 | the extraction row and the routed status in one transaction |
| `Worker.Deployment.EnsureReviewTask` | apps/worker/docfactory_worker/handlers.py:872-876 | the task is created after, and outside, that transaction |
| `Worker.Deployment.HandleParse` | apps/worker/docfactory_worker/handlers.py:257-316 | whatever it meets, an exception at any point included, the run is exactly the listed sequence of pipeline steps and leaves the row, its messages and its counts as tabled for that case |
| `Worker.Deployment.HandleExtract` | apps/worker/docfactory_worker/handlers.py:321-484 | the same for extract: an exception at any point, provider-down deferral, saturation, budget pause, invalid and routed answers, each with its tabled ending |
| `Worker.Deployment.Receive` | packages/core/docfactory_core/queues.py:98-101 | a message past its receives goes to the dead-letter queue, any other is delivered with its count raised |
| `Worker.Deployment.RunOnce` | apps/worker/docfactory_worker/consumer.py:38-72 | one poll deletes the message if and only if the handler returned and counts it; a message that used up its receives goes aside as it was, one acknowledged is replaced by at most its deferred copy or a hand-off, any other is back with one more receive; soundness is kept, progress never lost, a terminal status left alone, at most one hand-off and routed row |
| `Worker.ParseEnds` | apps/worker/docfactory_worker/handlers.py:257-316 | what every parse run leaves, in the document's own fields: status, updated_at, text, the messages sent, the message itself, and the counts, for each way it can go - put off and refreshed, skipped, FAILED on the last receive, NEEDS_OCR, PARSED with its hand-off, or raised |
| `Worker.ExtractEnds` | apps/worker/docfactory_worker/handlers.py:321-484 | the same for extract: BUDGET_EXCEEDED on a refused budget, FAILED on an invalid outcome or a caught failure on the last receive, APPROVED, or NEEDS_REVIEW with or without its task |
| `Worker.PolledEnds` | apps/worker/docfactory_worker/consumer.py:38-72 | and for a whole poll, from the message it took: that ending, and the message deleted exactly when the handler returned |
| `Worker.DuplicateIsNoOp` | apps/worker/docfactory_worker/handlers.py:277-280 | a redelivery of a stage already completed writes nothing and sends nothing |
| `Worker.HandledLeaves` | apps/worker/docfactory_worker/handlers.py:257-484 | over a whole handler run: where the message and its copies are at its end, and that soundness, rank and a terminal status are kept |
| `Healing.Table.ReapOne` | packages/core/docfactory_core/healing.py:212-281 | one candidate: the verdict, the row after it and the message sent, from the row as it is at its turn; a send that raises takes the claim back |
| `Healing.Table.ReapCandidates` | packages/core/docfactory_core/healing.py:212-304 | the loop computes the sweep of the candidates up to the first send that raises: rows, sends and report counters |
| `Healing.ReportBalances` | packages/core/docfactory_core/healing.py:90-105 | scanned is the sum of requeued, skipped, given up and raced, and requeued is the number of messages sent |
| `Healing.SweepKeepsFinished` | packages/core/docfactory_core/healing.py:239-247 | a sweep never touches a finished document, and moves a live one only to FAILED past its bound |
| `Healing.ClaimedAtMostOnce` | packages/core/docfactory_core/healing.py:239-252 | within a sweep a document is claimed at most once however often it was scanned |
| `Healing.FreshScanIsNotRaced` | packages/core/docfactory_core/healing.py:198-210 | over a fresh scan, oldest first and limited, every candidate is decided by its own row as scanned and none is raced |
| `Healing.SweepOfScan` | packages/core/docfactory_core/healing.py:212-281 | what a fresh sweep makes of each scanned document, in its own row: passed over exactly when its stage was not asked for, or it is paused and its tenant still over budget; failed when counting has spent its rescues; otherwise sent exactly one message, to the stage that takes it on, and counted if the sweep counts |
| `Healing.SweepDoesNoMore` | packages/core/docfactory_core/healing.py:212-281 | rows that were not scanned stay and get no message, and every message sent is for a stale row, its own stage, and a stage asked for |
| `Healing.ReportOfScan` | packages/core/docfactory_core/healing.py:212-281 | the report of a fresh sweep counts exactly the documents failed, out of stage and sent to, and no race |
| `Healing.ReapOneIsHealerStep` | packages/core/docfactory_core/healing.py:212-281 | what the sweep does to a table is, document by document, the claim, the uncounted send or the pass of the pipeline model |
| `Healing.RaisedSendIsHealerStep` | packages/core/docfactory_core/healing.py:276-278 | a send that raises is the rolled-back claim of the pipeline model |
| `Healing.DeadLetters.RedriveDlq` | packages/core/docfactory_core/healing.py:307-388 | the batched loop moves exactly the readable messages under the bound among the first max_messages, keeps the rest in order, and reports the counts |
| `Healing.RedriveConserves` | packages/core/docfactory_core/healing.py:341-376 | every inspected message is kept or moved, once |
| `Healing.RedriveIsBounded` | packages/core/docfactory_core/healing.py:352-365 | a moved message carries a counter of at most max_attempts; what stays is unreadable or used up |
| `Healing.RedriveIsExact` | packages/core/docfactory_core/healing.py:352-376 | message for message: readable ones under the bound come home counted once more, all others stay as they are |
| `Healing.RedriveInOrder` | packages/core/docfactory_core/healing.py:341-376 | a redrive of two batches is one after the other, in order |
| `Healing.RedriveAccounts` | packages/core/docfactory_core/healing.py:352-388 | every message inspected is moved or kept, and exhausted counts the readable ones that used up their attempts |
| `Budget.RunKeepsBalance` | packages/core/docfactory_core/budget.py:80-99 | every interleaving of reservations, settlements, releases, crashes, log writes and cap changes keeps counter, open calls, log and cap bound in balance |
| `Budget.Conservation` | apps/worker/docfactory_worker/handlers.py:524-560 | the counter equals settled actuals plus outstanding reservations, unsettled_calls the number outstanding, and the usage log the settled amounts less those not yet recorded |
| `Budget.ClampsNeverBind` | packages/core/docfactory_core/budget.py:92-99 | neither GREATEST clamp ever binds in a reachable state |
| `Budget.CapBound` | packages/core/docfactory_core/budget.py:80-90 | spend never exceeds the largest cap so far plus the sum of settled overruns |
| `Budget.NoOverrunNoBreach` | packages/core/docfactory_core/budget.py:80-90 | with a fixed cap and no overrun the cap holds outright |
| `Budget.SingleCallKeepsCapIffWithin` | apps/worker/docfactory_worker/handlers.py:509-512 | the completions of one call keep every cap, at every price, if and only if their input tokens add up to at most the estimate and their output tokens to at most the ceiling |
| `Budget.ValidFirstKeepsCap` | apps/worker/docfactory_worker/handlers.py:509-522 | a provider whose first completion is valid and within its estimate never crosses a cap |
| `Budget.GrantsAreFloor` | packages/core/docfactory_core/budget.py:80-90 | equal charges with nothing settled: exactly min(requests, floor(cap / charge)) are granted, whatever the schedule |
| `Budget.CapTakesEffect` | packages/core/docfactory_core/budget.py:80-90 | after any run and a change of the cap a reservation is granted exactly when it fits under the new cap |
| `Budget.ReleaseGivesBack` | packages/core/docfactory_core/budget.py:92-99 | after any run a release gives back all that was reserved, a settlement all but the actual cost, and a crash nothing |
| `Budget.AbandonedStays` | packages/core/docfactory_core/budget.py:80-99 | what a crash left reserved is never given back: it stays in the counter and in unsettled_calls in every continuation |
| `Budget.TenantSpend.ReserveAmount` | packages/core/docfactory_core/budget.py:118-133 | check and charge as one step; a refusal leaves the row alone |
| `Budget.TenantSpend.SettleReservation` | packages/core/docfactory_core/budget.py:136-148 | moves the row by actual minus reserved, clamped |
| `Budget.TenantSpend.ReleaseReservation` | packages/core/docfactory_core/budget.py:151-153 | settles to zero |
| `Budget.UsageLog.RecordUsage` | packages/core/docfactory_core/metering.py:31-64 | prices the call and appends one event with its tenant, document, pipeline, model, tier, purpose, tokens, cost and latency, each in its own field |
| `Budget.MeteredExtraction` | apps/worker/docfactory_worker/handlers.py:497-561 | over budget touches nothing; a failed or refused call gives its money back in full; a finished one moves the counter by exactly what it records; the breaker sees an admitted call as one; with a first completion within its estimate the spend ends within the cap, or past it by at most the price of a second completion and one unit of rounding |
| `Pricing.RoundHalfUpIsMonotone` | packages/core/docfactory_core/pricing.py:46 | rounding half up at the millionth is monotone |
| `Pricing.RoundHalfUpIsNearest` | packages/core/docfactory_core/pricing.py:46 | and gives the nearest integer, ties away from zero |
| `Pricing.CostIsMonotone` | packages/core/docfactory_core/pricing.py:41-46 | more tokens never cost less, and nothing costs less than zero |
| `Pricing.EstimateCovers` | packages/core/docfactory_core/pricing.py:95-104 | the estimate covers a prompt exactly when its tokens, all but one, average four characters |
| `Pricing.ExtractedTokens` | packages/core/docfactory_core/extraction.py:98-122 | the tokens of an outcome are those of exactly the completions made, whichever way it ended |
| `Pricing.WithinIffTokensWithin` | packages/core/docfactory_core/pricing.py:84-92 | a call costs no more than its reservation at every price if and only if each of its token counts is within what was reserved |
| `Pricing.RunOverrun` | packages/core/docfactory_core/extraction.py:98-122 | a run whose first completion is within its estimate overruns by at most its second completion's price and one unit, by nothing if there is none |
| `Pricing.RunExtraction` | packages/core/docfactory_core/extraction.py:87-163 | the two-attempt loop computes the unrolled two attempts: which calls it makes, that a valid answer ends it and is recorded, that its tokens are those of every completion it received, and when it gives up or aborts |
| `Pricing.OneCompletionWithinEstimate` | packages/core/docfactory_core/pricing.py:84-92 | a run of one completion inside its estimate never costs more than was reserved |
| `Pricing.TwoCompletionsOverrun` | packages/core/docfactory_core/extraction.py:98-120 | two completions overrun by at most the second one's price plus one unit of rounding |
| `Pricing.TwoCompletionsCanOverrun` | apps/worker/docfactory_worker/handlers.py:519-522 | and they can: an invalid full answer followed by another overruns by 0.041960 dollars |
| `Resilience.Causes` | packages/core/docfactory_core/resilience.py:212-224 | the errors wrapped, outermost first, none twice, stopping only at the limit, the end or a cycle |
| `Resilience.Classify` | packages/core/docfactory_core/resilience.py:158-183 | transient exactly when the outermost error says so by type, or some error of the chain down to the limit, its end or a cycle is transient and none permanent |
| `Resilience.ClassifyWrappedRejection` | packages/core/docfactory_core/resilience.py:167-176 | a rejected request inside a connection error is permanent, unless the outer error is a TransientError by type |
| `Resilience.VerdictIffSigns` | packages/core/docfactory_core/resilience.py:186-209 | one exception read in full: permanent, and transient, exactly by its name, its throttling code and its status, in that order |
| `Resilience.ThrottleIsTransient` | packages/core/docfactory_core/resilience.py:186-209 | a throttle that arrives as a 400 is transient, the same 400 without its code is not, and five more of the kind |
| `Resilience.DelayFor` | packages/core/docfactory_core/resilience.py:240-244 | a delay between zero and the capped exponential one |
| `Resilience.DelayDoubles` | packages/core/docfactory_core/resilience.py:240-241 | the capped delay starts at the base and doubles until it meets the ceiling |
| `Resilience.EveryDelayIsDrawn` | packages/core/docfactory_core/resilience.py:242-244 | full jitter: every delay up to the cap is drawn, by its own share |
| `Resilience.RetryTransient` | packages/core/docfactory_core/resilience.py:247-291 | which attempt's result comes back, that every earlier one was transient, and that it slept exactly the delays drawn in between |
| `Resilience.BackoffBelowCeiling` | packages/core/docfactory_core/resilience.py:240-244 | n capped delays sum to at most n times the ceiling |
| `Resilience.CircuitBreaker.AllowCall` | packages/core/docfactory_core/resilience.py:347-364 | admission and its effect as one locked step |
| `Resilience.CircuitBreaker.RecordSuccess` | packages/core/docfactory_core/resilience.py:366-373 | closes the circuit and forgets every failure; `Resilience.OpenIffFailing` says what that means over a run |
| `Resilience.CircuitBreaker.RecordFailure` | packages/core/docfactory_core/resilience.py:375-399 | only transient failures count; a failed probe restarts the cooldown |
| `Resilience.CircuitBreaker.Call` | packages/core/docfactory_core/resilience.py:401-413 | admission, call and recording |
| `Resilience.GuardedRetry` | apps/worker/docfactory_worker/handlers.py:528-539 | breaker outside, retry inside: a refused call invokes nothing, one that fails transiently throughout invokes all its attempts, and the breaker records one outcome |
| `Resilience.RunIsSound` | packages/core/docfactory_core/resilience.py:378-389 | over any interleaving, late results included: closed implies failures under the threshold, and a probe implies opened |
| `Resilience.OpenIffFailing` | packages/core/docfactory_core/resilience.py:366-389 | over any interleaving: it is closed exactly while fewer than `threshold` transient failures were recorded since the last success, and then counts exactly those |
| `Resilience.FewFailuresNeverOpen` | packages/core/docfactory_core/resilience.py:366-389 | an interleaving with fewer transient failures than the threshold between any two successes never opens it, and admits everyone throughout |
| `Resilience.AdmitsAllIffClosed` | packages/core/docfactory_core/resilience.py:340-373 | everyone is admitted at every time exactly while it is closed, and always right after a success |
| `Resilience.CooldownAndSlot` | packages/core/docfactory_core/resilience.py:347-389 | after any interleaving: the cooldown starts at the failure that reaches the threshold and at a transient failure while a probe is out, at no other; the slot is taken by the first caller after it and freed by a success or a transient failure |
| `Resilience.ProbeRestartsCooldown` | packages/core/docfactory_core/resilience.py:363-385 | between a probe and the next success the slot is taken or the cooldown restarted after it |
| `Resilience.ProbeSpacing` | packages/core/docfactory_core/resilience.py:340-399 | two admissions granted while not closed, with no success between them, are at least one cooldown apart |
| `Resilience.WedgedUntilCleared` | packages/core/docfactory_core/resilience.py:375-377 | while the slot is taken and nothing clears it, the breaker refuses everyone at every time |
| `Resilience.RecoversIffSlotFree` | packages/core/docfactory_core/resilience.py:361-371 | it admits callers again from some time on exactly when the slot is free; only a success or a transient failure frees it |
| `Resilience.PermanentProbeHoldsSlot` | packages/core/docfactory_core/resilience.py:376-377 | a call leaves the slot taken exactly when it was the probe and failed permanently |
| `Resilience.SequentialCallerWedged` | packages/core/docfactory_core/resilience.py:401-406 | after that a sequential caller never reaches the provider again |
| `Resilience.WedgeIsReachable` | packages/core/docfactory_core/resilience.py:375-389 | for every configuration a sequence of calls on a fresh breaker after which no later call gets through |
| `Resilience.OpensAtThreshold` | packages/core/docfactory_core/resilience.py:386-389 | in an outage call number `threshold` opens the breaker, and all of them were admitted |
| `Resilience.InvocationsPerCall` | apps/worker/docfactory_worker/handlers.py:530-539 | the invocations of an outage are attempts times admitted calls |
| `Resilience.OutageCost` | apps/worker/docfactory_worker/handlers.py:530-539 | the wrapped function runs attempts * threshold times before the opening and at most attempts * (threshold + floor(L / cooldown)) times for calls started within L of it |
| `Resilience.WorkThroughOutage` | apps/worker/docfactory_worker/handlers.py:528-539 | the worker in an outage makes exactly that many invocations and sleeps at most one backoff per admitted call |
| `RateLimit.StoredIsNear` | packages/core/docfactory_core/backpressure.py:63-78 | a stored token count is within half a ten-thousandth of the computed one |
| `RateLimit.GrantTakesOne` | packages/core/docfactory_core/backpressure.py:63-78 | a request is granted exactly when one token is on hand; a grant takes one of them, to within the rounding of the write either way, and a refusal takes nothing |
| `RateLimit.GrantsAtOnce` | packages/core/docfactory_core/backpressure.py:63-78 | with n whole tokens on hand requests at one instant get exactly min(requests, n) grants, and the rest stay |
| `RateLimit.NewTenantGetsBurst` | packages/core/docfactory_core/backpressure.py:54-78 | a new tenant's first requests, all at one instant, get exactly the burst |
| `RateLimit.IdleTenantGetsBurst` | packages/core/docfactory_core/backpressure.py:63-78 | so does a tenant idle long enough to fill the bucket, and no more |
| `RateLimit.GrantsInWindow` | packages/core/docfactory_core/backpressure.py:63-78 | from any state of the row, requests in order get at most the burst plus the refill of their window |
| `RateLimit.GrantLowersPotential` | packages/core/docfactory_core/backpressure.py:63-78 | every grant lowers tokens - rate * refilled_at by one, less the rounding gain, whatever its timestamp |
| `RateLimit.GrantsBounded` | packages/core/docfactory_core/backpressure.py:54-84 | from creation, grants * (1 - rounding gain) never exceed burst + rate * (latest - created), timestamps in any order, exact and NUMERIC(10,4) storage alike |
| `RateLimit.RetryAfterIsExact` | packages/core/docfactory_core/backpressure.py:100-109 | after a refusal an uncontended request is granted if and only if it comes at least the unrounded wait later |
| `RateLimit.NoBurstNoGrant` | packages/core/docfactory_core/backpressure.py:63-78 | a burst below one never grants |
| `RateLimit.NoRefillNoGrant` | packages/core/docfactory_core/backpressure.py:100-109 | without a refill a refused tenant stays refused, whenever it comes back, and is told a minute |
| `RateLimit.ReportedWait` | packages/core/docfactory_core/backpressure.py:100-109 | the reported wait is within 5 ms of the exact one |
| `RateLimit.ReportedWaitWorksIffRoundedUp` | packages/core/docfactory_core/backpressure.py:100-109 | coming back after the reported wait works exactly when the wait is a whole number of hundredths, or more than half a hundredth past one, a tie counting for odd ones only; either storage |
| `RateLimit.ReportedWaitCanBeShort` | packages/core/docfactory_core/backpressure.py:100-109 | and rounding can shorten it |
| `RateLimit.TenantBucket.CheckRateLimit` | packages/core/docfactory_core/backpressure.py:86-109 | creates the row full, spends in one step, and reports tokens and wait as of the same row |
| `Drift.WelfordStep` | packages/core/docfactory_core/drift.py:146-158 | one step of the accumulators on the totals they stand for |
| `Drift.WelfordIsBatch` | packages/core/docfactory_core/drift.py:146-158 | the accumulators are the batch statistics: count, n * mean = sum, m2 = sum of squared deviations from the mean |
| `Drift.DeviationsMove` | packages/core/docfactory_core/drift.py:146-158 | squared deviations about one centre from those about another |
| `Drift.BreachIsZScore` | packages/core/docfactory_core/drift.py:161-176 | the squared comparison is the z-score test in the signal's direction, for whatever sigma squares to the variance |
| `Drift.DriftStat.ObserveSignal` | packages/core/docfactory_core/drift.py:320-358 | one signal: folded in during the baseline, judged against the frozen statistics after it |
| `Drift.DriftStat.UpdateCentroid` | packages/core/docfactory_core/drift.py:324-340 | restarted by the first profile or a new dimension, averaged otherwise, frozen after the baseline |
| `Drift.DriftStat.ObserveDocument` | packages/core/docfactory_core/drift.py:238-387 | the row after one document, and whether drift is announced |
| `Drift.BaselineIsBatch` | packages/core/docfactory_core/drift.py:320-323 | after any baseline each signal's count, mean and m2 are the batch statistics of the values it carried |
| `Drift.CentroidIsMean` | packages/core/docfactory_core/drift.py:324-340 | the centroid is the elementwise mean of the profiles at a fixed dimension |
| `Drift.BaselineIsFrozen` | packages/core/docfactory_core/drift.py:342-358 | no later document moves a statistic or the centroid |
| `Drift.RateVarianceIsPositive` | packages/core/docfactory_core/drift.py:161-167 | the rate signal's sigma is positive with no floor at all |
| `Drift.RunIsTrailing` | packages/core/docfactory_core/drift.py:351-357 | a signal's counter is the length of the run of breaches at the end of its judged values |
| `Drift.FlaggedIffLastKBreach` | packages/core/docfactory_core/drift.py:343-362 | a signal is flagged exactly when its last k or more carried values after the baseline all breach it |
| `Drift.RateFlaggedIff` | packages/core/docfactory_core/drift.py:285-362 | in validation results alone: flagged exactly when the baseline has at least two, the last k after it all failed, and a failure stands out from the baseline's failure rate, (1 - f/n)^2 against threshold^2 times the smoothed variance of f failures in n |
| `Drift.FailureStandsOutAsDeployed` | packages/core/docfactory_core/drift.py:161-176 | with the deployed thresholds a failing document stands out from a baseline of fifty with up to four failures, and from none with five |
| `Drift.ConfidenceFlaggedIff` | packages/core/docfactory_core/drift.py:285-362 | in confidences alone: flagged exactly when the last k after the baseline all lie below its mean by threshold sample deviations, with the floor |
| `Drift.TextIsMeasuredFromMean` | packages/core/docfactory_core/drift.py:288-312 | the text signal is the distance to the elementwise mean profile of the documents so far, of the baseline once that is full |
| `Drift.OtherDimensionRestarts` | packages/core/docfactory_core/drift.py:294-331 | a profile of another dimension has no text signal and becomes the centroid while the baseline is collected |
| `Drift.NothingFlaggedEarly` | packages/core/docfactory_core/drift.py:314-362 | nothing is flagged before document baseline_n + k |
| `Drift.StreamIsConsistent` | packages/core/docfactory_core/drift.py:341-375 | flag, DRIFTING and first_flagged_at come together, and the status is BASELINE exactly while the baseline is collected |
| `Drift.VerdictIsMonotone` | packages/core/docfactory_core/drift.py:341-375 | status runs baseline, stable, drifting; the flag stays and its first time is written once |
| `Drift.NewlyFlaggedOnce` | packages/core/docfactory_core/drift.py:363-364 | drift is announced at most once in the life of a row |
| `Drift.AnnouncedAtFirst` | packages/core/docfactory_core/drift.py:343-375 | the announcement, and the first time kept, are those of the first document after which any signal is flagged |
| `Drift.FlaggedIffRaised` | packages/core/docfactory_core/drift.py:359-375 | the row's flags are the latest raised, and there are some exactly when anything ever was |
| `Decimals.StrRoundTrip` | packages/core/docfactory_core/pipeline.py:191-192 | every decimal survives being stored as text, digit for digit, sign of zero and exponent included |
| `Decimals.HundredthValue` | packages/core/docfactory_core/normalize.py:69-75 | the division by one hundred is exact |
| `Decimals.ReadWritten` | packages/core/docfactory_core/normalize.py:63-66 | a number written as sign, digits, fraction and exponent is read as the number they spell |
| `Normalize.UsdRoundTrip` | data/synth/generate.py:49-50 | every cent amount printed in dollars is read back exactly, through grouping of any length and either sign |
| `Normalize.EurRoundTrip` | data/synth/generate.py:52-55 | and in euros, through the separator swap and the comma-only branch |
| `Normalize.WholeDollars` | packages/core/docfactory_core/normalize.py:60-62 | whole dollars with any number of comma groups are read back |
| `Normalize.WholeEuros` | packages/core/docfactory_core/normalize.py:9-11 | a euro amount without cents is read right below a thousand, a thousandfold too small below a million, and refused from there on |
| `Normalize.CurrencyIsIgnored` | packages/core/docfactory_core/normalize.py:46-52 | any of the six currency tokens before or after a number, spaced or not, is ignored |
| `Normalize.PctRoundTrip` | data/synth/generate.py:57-58 | every rate of at most five decimals printed as a percentage is read back as the same number |
| `Normalize.RateAboveOne` | packages/core/docfactory_core/normalize.py:69-75 | a normalized rate is above one exactly when the number in the text is above a hundred, percent sign or not |
| `Normalize.NormalizeTextIsTidy` | packages/core/docfactory_core/normalize.py:34-35 | the result has single inner spaces and the same list of words; tidy text, and only that, is left alone |
| `Normalize.SameTextIffSameWords` | packages/core/docfactory_core/normalize.py:34-35 | two texts normalize alike exactly when they have the same words |
| `Canonical.IsoReads` | packages/core/docfactory_core/pipeline.py:193-194 | every calendar day is read back from its ISO text |
| `Canonical.NumberReads` | packages/core/docfactory_core/normalize.py:69-75 | a stored decimal is read back unchanged as an amount, and as a rate exactly when it is at most one |
| `Canonical.WholeNumberReads` | packages/core/docfactory_core/normalize.py:42-43 | a JSON integer is itself as an amount, and a hundredth of itself as a rate exactly when above one |
| `Canonical.BoolAndFloatRead` | packages/core/docfactory_core/normalize.py:42-45 | true and false are one and zero, a fraction is read from the text Python shows for it |
| `Canonical.PrintedMoneyReads` | packages/core/docfactory_core/pipeline.py:198-200 | money printed in dollars or euros normalizes to the cent as either amount kind |
| `Canonical.PrintedRateReads` | packages/core/docfactory_core/pipeline.py:201-202 | a printed percentage normalizes to its rate |
| `Canonical.TextKeepsWords` | packages/core/docfactory_core/pipeline.py:215 | text and enumeration values keep their words, tidily, and only those |
| `Canonical.IsoDateReads` | packages/core/docfactory_core/pipeline.py:203-204 | an ISO day with any whitespace around it normalizes to that day |
| `Canonical.EmptyTables` | packages/core/docfactory_core/pipeline.py:205-214 | what is empty or zero has no rows, and a number or true is no table |
| `Canonical.ObjectAsTable` | packages/core/docfactory_core/pipeline.py:205-214 | an object in a table's place is iterated by key, with the lookup failures that brings |
| `Canonical.OddRows` | packages/core/docfactory_core/pipeline.py:206-213 | a row that is no object fails on the membership test or the lookup, or has no cells |
| `Canonical.RowsKeepDeclared` | packages/core/docfactory_core/pipeline.py:206-212 | a normalized row has exactly the declared columns its source has, each normalized |
| `Canonical.RecordsKeepDeclared` | packages/core/docfactory_core/pipeline.py:169-177 | a normalized record has exactly the declared fields, absent and null ones as nothing |
| `Canonical.StoredScalar` | packages/core/docfactory_core/pipeline.py:198-204 | a normalized scalar of any kind is a fixed point exactly when it is not a rate above one |
| `Canonical.StoredValue` | packages/core/docfactory_core/pipeline.py:198-214 | the same for tables, nested ones included |
| `Canonical.StoredRecord` | packages/core/docfactory_core/pipeline.py:169-214 | for every definition and record: what was normalized and stored normalizes to itself if and only if every normalized rate is at most one |
| `Canonical.PrintedRateIsStable` | packages/core/docfactory_core/normalize.py:69-75 | a printed percentage, once stored, stays what it was exactly up to one hundred percent |
| `Rules.RuleReadsOnly` | packages/core/docfactory_core/pipeline.py:445-491 | a verdict depends on nothing but the fields the rule names |
| `Rules.SumRuleInNumbers` | packages/core/docfactory_core/pipeline.py:436-449 | a sum rule holds exactly when the column adds up to the target within the tolerance, numbers and readable texts alike |
| `Rules.SumRuleNeedsAll` | packages/core/docfactory_core/pipeline.py:485-490 | one row without a readable cell, or no target, and it fails |
| `Rules.SumOfNoTable` | packages/core/docfactory_core/pipeline.py:437-440 | a field without rows adds up to zero; one that cannot be added up fails the rule |
| `Rules.TermsRuleInNumbers` | packages/core/docfactory_core/pipeline.py:441-449 | a terms rule holds exactly when the named fields add up to the target within the tolerance |
| `Rules.ProductRuleInNumbers` | packages/core/docfactory_core/pipeline.py:451-459 | a product rule holds exactly when the two factors multiply to the result within the tolerance |
| `Rules.RowRuleInNumbers` | packages/core/docfactory_core/pipeline.py:463-467 | a row fails a row rule exactly when its product misses its result by more than the tolerance |
| `Rules.DateRuleInDays` | packages/core/docfactory_core/pipeline.py:469-472 | a date rule compares year, month and day, and fails unless both are there |
| `Rules.TextOrder` | packages/core/docfactory_core/pipeline.py:469-472 | texts are compared by the first character they differ in, a prefix before the longer one |
| `Rules.IsoOrder` | packages/core/docfactory_core/pipeline.py:193-194 | the ISO text of days is ordered as the calendar is |
| `Rules.RequiredMeans` | packages/core/docfactory_core/pipeline.py:480-484 | required fields are filled by anything but nothing, an empty text and an empty table |
| `Rules.BadRowsExact` | packages/core/docfactory_core/pipeline.py:494-514 | exactly the rows that miss or cannot be evaluated are reported, each once, in order |
| `Rules.RowRuleAgrees` | packages/core/docfactory_core/pipeline.py:466-474 | the document-level and the per-row path agree: the rule holds exactly when no row is reported |
| `Rules.FailingRows` | packages/core/docfactory_core/pipeline.py:504-513 | the loop over one table computes that list |
| `Rules.InconsistentRows` | packages/core/docfactory_core/pipeline.py:494-514 | the loop over the rules computes the reported rows per table, or raises where iterating does |
| `Rules.LastRowRuleWins` | packages/core/docfactory_core/pipeline.py:496-514 | of several row rules on one table only the last one's rows are reported |
| `Rules.EarlierFailureIsHidden` | packages/core/docfactory_core/pipeline.py:496-514 | a record and two rules where a failing row is reported by the first rule alone and by nobody once the second follows |
| `Corruption.Payload.DriftTotal` | packages/core/docfactory_core/corruption.py:115-124 | writes the drifted total, or raises and writes nothing |
| `Corruption.Payload.TransposeLineAmounts` | packages/core/docfactory_core/corruption.py:141-150 | exchanges two amounts, or on a single row quantity and unit price, or raises and writes nothing |
| `Corruption.Payload.ShiftDate` | packages/core/docfactory_core/corruption.py:153-157 | writes the earlier date in ISO form, or raises and writes nothing |
| `Corruption.DriftNormalizes` | packages/core/docfactory_core/corruption.py:115-124 | the drifted payload normalizes to the same record with the drifted total in it |
| `Corruption.DriftIsLarge` | packages/core/docfactory_core/corruption.py:119-124 | a drift moves the total by at least 0.995 in the drawn direction, rounding included |
| `Corruption.DriftIsAsDrawn` | packages/core/docfactory_core/corruption.py:119-124 | the drift is the drawn share of the total, or one where that is less, in the drawn direction, to the half cent |
| `Corruption.DriftBreaksTotals` | packages/core/docfactory_core/corruption.py:115-124 | a terms_equal rule on the total that held is broken by every drift, whatever was drawn, for any tolerance below 0.4975 |
| `Corruption.DriftCanHide` | packages/core/docfactory_core/corruption.py:122-124 | from 0.4975 on a drift can go unnoticed, so that bound is the exact one |
| `Corruption.TransposeNormalizes` | packages/core/docfactory_core/corruption.py:141-145 | transposing the payload's amounts transposes the normalized ones |
| `Corruption.FactorsNormalize` | packages/core/docfactory_core/corruption.py:146-150 | on a single row the normalized quantity and unit price are exchanged |
| `Corruption.TransposeKeepsSums` | packages/core/docfactory_core/corruption.py:141-145 | the sum rule's residual and verdict stay, unreadable cells included |
| `Corruption.TransposeIsSeenByRows` | packages/core/docfactory_core/pipeline.py:494-514 | with exact rows, the row check reports exactly the two transposed rows if their amounts differ by more than the tolerance, and none otherwise |
| `Corruption.TransposeEndToEnd` | packages/core/docfactory_core/pipeline.py:494-514 | from a payload with exact rows through the exchange, normalization and the row check: exactly the two rows are reported, or none within the tolerance |
| `Corruption.SingleRowIsUnseen` | packages/core/docfactory_core/corruption.py:146-150 | the single-row exchange changes no verdict of the row product |
| `Corruption.DayBeforeOrdinal` | packages/core/docfactory_core/corruption.py:157 | the day before is one less in the day count |
| `Corruption.EarlierDays` | packages/core/docfactory_core/corruption.py:157 | k days earlier is k less in the day count and not later on the calendar |
| `Corruption.EarlierExistsIff` | packages/core/docfactory_core/corruption.py:157 | there is such a day exactly while the calendar reaches that far back |
| `Corruption.ShiftIsByDays` | packages/core/docfactory_core/corruption.py:153-157 | the operator succeeds exactly when the payload has a readable date that far into the calendar, and moves it by exactly the drawn days |
| `Corruption.ShiftIsBlind` | packages/core/docfactory_core/corruption.py:153-157 | an earlier invoice date keeps date_order and every rule that does not read it |
| `Corruption.ShiftNormalizes` | packages/core/docfactory_core/corruption.py:153-157 | the shifted payload normalizes to the same record with the shifted date in it |
| `Calibrate.Score` | packages/evals/docfactory_evals/calibrate.py:276-278 | one pass counts the approved and the right among them |
| `Calibrate.Sweep` | packages/evals/docfactory_evals/calibrate.py:272-280 | 201 thresholds in order, each with its share approved and the share of those that is right, one where none is |
| `Calibrate.CountsAreOfFields` | packages/evals/docfactory_evals/calibrate.py:276-278 | approved are the fields that reach the threshold, right ones those of them that are right, each counted once |
| `Calibrate.CoverageFalls` | packages/evals/docfactory_evals/calibrate.py:272-280 | coverage never rises with the threshold, whatever the scores |
| `Calibrate.BestIsFirst` | packages/evals/docfactory_evals/calibrate.py:322-326 | among equals the earliest point wins |
| `Calibrate.OperatingPointIsBest` | packages/evals/docfactory_evals/calibrate.py:301-326 | a target is met exactly when some point is feasible; then a best point within the tolerance of the widest feasible one is chosen; else a best usable one; else approve nothing |
| `Calibrate.ChosenInNumbers` | packages/evals/docfactory_evals/calibrate.py:301-326 | the same in numbers: five percent coverage, two points of tolerance, and why each more precise point was passed over |
| `Calibrate.LooserBuysMore` | packages/evals/docfactory_evals/calibrate.py:301-326 | a looser target never buys less coverage, on any curve, met or unmet |
| `Calibrate.FrontierRises` | packages/evals/docfactory_evals/calibrate.py:329-331 | so coverage rises along the published frontier, and once a target is met every looser one is |
| `Calibrate.MetTargetHolds` | packages/evals/docfactory_evals/calibrate.py:301-320 | a met target holds on the sample at the chosen threshold, over at least one field in twenty |
| `Ingest.RunIsSound` | packages/core/docfactory_core/ingest.py:104-200 | every interleaving of uploads and storage events, crashes included, keeps row, inserter, object and parse message consistent |
| `Ingest.OneDocumentPerContent` | packages/core/docfactory_core/ingest.py:104-110 | two callers that get an answer get the same document if and only if tenant and bytes are the same, whichever way they came |
| `Ingest.OneInserterPerContent` | packages/core/docfactory_core/ingest.py:170-190 | exactly one caller per content is told its document is new |
| `Ingest.LoserFindsWinner` | packages/core/docfactory_core/ingest.py:186-190 | the re-read after a lost race always finds the winner's row |
| `Ingest.OneFirstParsePerContent` | packages/core/docfactory_core/ingest.py:183-195 | at most one first parse message per content, from the inserter, and only for a PDF |
| `Ingest.RowsStay` | packages/core/docfactory_core/ingest.py:159-168 | a row keeps its id and verdict in every later state |
| `Ingest.SettledContent` | packages/core/docfactory_core/ingest.py:104-110 | once every caller with these bytes has its answer: one row, named by one of them, started exactly once if a PDF and never otherwise |
| `Ingest.UnsentMeansInterrupted` | packages/core/docfactory_core/ingest.py:183-195 | a PDF row without a first message has an inserter still to send, or crashed |
| `Ingest.CrashLeavesUnsent` | packages/core/docfactory_core/ingest.py:183-195 | and a crash right after the insert leaves a PDF without its first message in every continuation, while every later caller with the same bytes is told it is there |
| `Ingest.ObjectsAreUploads` | apps/api/docfactory_api/main.py:395-410 | the object store holds what uploads of PDFs put there and nothing else |
| `Ingest.Intake.CommitRow` | packages/core/docfactory_core/ingest.py:183-190 | the insert succeeds exactly when the key is free, and replaces nothing |
| `Ingest.Intake.IngestObject` | packages/core/docfactory_core/ingest.py:104-200 | rows, objects, queue and reply after a storage event, with a rival committing between check and insert or not; a non-PDF leaves a FAILED row and no message |
| `Ingest.Intake.UploadDocument` | apps/api/docfactory_api/main.py:380-438 | the same for an upload: a non-PDF is refused untouched, the object is written before the row |
| `Ingest.CallIsRun` | packages/core/docfactory_core/ingest.py:170-195 | either entry point does exactly what the interleaved caller does when its call runs through, raced or not |
| `Ingest.RunThenAfter` | packages/core/docfactory_core/ingest.py:104-110 | a call added to any interleaving is a longer interleaving, so what holds of all of them holds after it |
| `Ingest.Intake.DropThenUpload` | packages/core/docfactory_core/ingest.py:10-12 | the same file by both routes is one document, started once |
| `Ingest.SplitJoin` | packages/core/docfactory_core/ingest.py:96-97 | a key splits into the parts it was joined from |
| `Ingest.RouteOfLayout` | packages/core/docfactory_core/ingest.py:87-101 | keys in the documented layout, with and without a type, go to the tenant and type they say |
| `Ingest.RouteOfParts` | packages/core/docfactory_core/ingest.py:87-101 | for every key: ours exactly when its second part is the prefix and a file follows, with its tenant and its type if that is a known one |
| `Ingest.UploadsAreNotReingested` | apps/api/docfactory_api/main.py:400 | the store's event for an uploaded object is ignored exactly when the ingest prefix is not `incoming` |

## Left out

- Pipeline.ProgressIsMonotone: false of overlapping runs and of a give-up under a live run (`Overlap.OverlapUndoesApproval`, `Pipeline.GiveUpCanBeOverwritten`), so it is proved without them, and `Overlap.TerminalLeftIffWrittenOver` says of any overlap exactly which steps leave a terminal status; one message held by two runs, which the visibility timeouts prevent (`queues.py:45-52`), is not modelled.
- Deliveries.DeliveriesBounded: nothing in the code bounds the number of provider-down deferrals, of redrives that crash before deleting their original, or of the API's uncounted sweeps, so each is charged per event.
- Recovery.NoDocumentIsLost: shows a way forward from every state; it does not claim that a run eventually succeeds, nor that a budget-paused tenant gets under its cap. A document at the parse stage is rescued by the API's sweep here; the worker's counting sweep may fail it once its rescues are spent (`Recovery.CountedRescueFailsIffSpent`).
- Worker.Deployment.RunOnce: one document; one that no longer exists is an exception like any other, since nothing deletes rows.
- Healing.Table.ReapCandidates: the tenants' candidate lists are one list, and the scan itself is a predicate (`Healing.ScanOf`).
- Budget.RunKeepsBalance: starts from a fresh tenant_spend row; deleting or editing the row by hand is not modelled.
- RateLimit.GrantsBounded: a negative refill rate is excluded; the limits do not change during the run.
- Budget.UsageLog.RecordUsage: the extraction id, which the worker never passes, and a caller's own session are left out.
- Resilience.Classify: where an exception keeps its HTTP status and AWS code is not modelled; they are fields of the error.
- Resilience.RetryTransient: a negative delay, which `time.sleep` refuses, is excluded.
- Drift.CentroidIsMean: a profile dimension that changes during the baseline restarts the centroid, and the average after that is not the mean of all profiles.
- Drift.DriftStat.ObserveDocument: the last z-score, the computed time and the flagged document are not stored; the cosine distance and the text profile are parameters, and a square root is never taken.
- Decimals.StrRoundTrip: finite numbers in ASCII digits; infinities, NaN, other scripts' digits and the exponent limit of `Decimal` are not modelled.
- Decimals.HundredthValue: the 28-digit context of `Decimal` is not modelled; a longer coefficient is rounded by the division.
- Canonical.StoredRecord: date formats besides extended ISO, Python's `str` of non-strings and a dictionary's key order are parameters.
- Rules.InconsistentRows: sums and products are exact, not rounded to 28 digits.
- The wrong and the truncated vendor touch no number and no rule the model has, so those two operators are left out; so is the seeded choice among operators.
- Calibrate.Sweep: an empty sample, whose mean is not a number, is excluded; thresholds are exact twohundredths.
- Ingest.Intake.UploadDocument: the unknown document type, the rate limit and the empty upload are refused before this point.
- Hashing: equal digests stand for equal bytes, and document ids never collide.
- The in-flight ceiling is a separate read and no hard limit, so nothing is claimed of it.
- S3 event parsing, row level security, storage and queue clients, prompts, JSON Schema, confidence scoring, review endpoints, reports and plots are left out: they would add easy members only.
