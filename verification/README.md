# FlowMate in Dafny

A model of FlowMate's reminder delivery and work item logic, with proofs of what the program promises. FlowMate keeps
tasks, follow-ups and waiting items for one user, reminds them through a messenger, turns free text into drafts of work
items with the help of a language model, and serves a small web client.

`dafny verify dfyconfig.toml` checks everything.

## How the model is built

Reminders, from one row up to the whole system:

* `ReminderRows` has one row of the reminder table and every transition a transaction can make on it; `DedupKeys` spells
  out the deduplication keys as text; `ReminderSync` reconciles an item's reminders with its date.
* `ReminderService` is the table as the program changes it: reminder objects whose fields are assigned, and loops over
  them, each method proved against the row transitions.
* `WorkItems` has the requests on work items as one transaction each, over items, links, history and reminders;
  `WorkItemStore` performs them on mutable records. `BoardSteps` shows what each request does to reminders,
  `RequestEffects` and `RequestOutcomes` what it achieves, `WorkItemRuns` and `Families` what sequences of requests keep.
  `ReminderPlans` spells out which reminders an item is to have, and that reconciliation brings the table there.
* `Protocol` puts any number of workers, users, operators and schedulers on one board. A worker's attempt has a program
  counter and can crash between any two steps; clocks, locked rows and the messenger's answers are part of each action.
  Beside the board, a ledger records which starts happened, which were refused for certain, and which reached the user.
  A capture creates open items only (src/flowmate/task_engine/conversion.py:471-475, src/flowmate/captures.py:192-224).
  `ProtocolInvariant` proves the invariant, `ProtocolMoves` bounds single steps, and `DeliverySafety`, `DigestSafety`,
  `BoardSafety` and `DeliveryChances` draw the conclusions for all runs; `ReminderOutcomes` tells column by column what each
  transaction leaves. `Worker` shows that the worker's program takes
  steps of the protocol, with everyone else acting in between.

Beside them stand `DraftText`, `DraftItems`, `DraftConversion`, `DraftRepeats` and `Itemization` (from a provider's answer to stored work
items and relations), `LocalTime` (wall times, quiet hours, rescheduling), `LoginCodes` (one-time codes and sessions) and
`AiJobs` (leased background jobs).

Identities are positions in tables; a deleted note or job keeps its position, marked as deleted. In a deduplication key
the decimal text of a position stands for the text of an identifier, and a day's number for its date. A fresh token is the
next unused number. Instants are microseconds since the epoch. A transaction is one atomic step, and the rows it locks, or
finds locked, are the `order` it is given.

## Where the program and its documentation part

* The repository's README.md:554 says temporary failures are retried. The program retries only those for which the messenger names a delay
  (src/flowmate/reminders/processor.py:161-186); any other becomes an unknown outcome.
* README.md:557 says an unknown outcome is never retried automatically. The digest upsert and a snooze do make such a
  reminder claimable again, but it cannot start: `DeliverySafety.UnclearIsFinal`. Nothing is claimed about such a
  reminder's ever being delivered.
* README.md:560-562 says a long processing timeout keeps an active delivery from losing its lease. The lease begins at the
  claim and a batch is processed in sequence, so it can run out under a delivery: `DeliverySafety.DeliveryKeepsItsClaim`
  says exactly when.
* Reopening a follow-up after a reply undoes an older completion: `Families.ReopenAfterReply` says when,
  `Families.ReopenAfterReplyCanRevive` gives the requests.
* A limited login request that waits exactly as long as it is told is refused again, unless less than a second was left:
  `LoginCodes.AdviceIsShort`, with the run in `LoginCodes.AdviceFails`. One second more is enough.
* A consolidated item may depend on an item number that is gone, and renumbering then fails: `Itemization.ParseDraft`,
  with the answer in `Itemization.RenumberingCanFail`.
* A background job whose worker dies is stranded if and only if that was its last allowed attempt:
  `AiJobs.StrandedExactlyInLastAttempt`, with a run in `AiJobs.StrandingHappens`.
* Clean-up forgets login codes by its own clock, so a request whose clock lags far enough behind can exceed a window's limit:
  `LoginCodes.LagBreaksTheWindow`.
* README.md:436-437 says repeated confirmation creates no duplicate records. It does after a confirmed note was deleted
  (`DraftRepeats.DeletedNoteIsMadeAgain`) and after a confirmed draft was recovered and analysed anew
  (`DraftRepeats.RecoveredTaskIsMadeTwice`); `DraftRepeats.RepeatAfterwards` says exactly when.

## Model

| member | source | states |
|---|---|---|
| DedupKeys.KeyMatchesOnePurpose | src/flowmate/reminders/sync.py:64-68 | no deduplication key, versions included, is read as belonging to two different items, types, kinds or dates |
| DedupKeys.NextKeyIsFree | src/flowmate/reminders/sync.py:130-137 | the chosen key is unused, belongs to its base, and is the lowest free version |
| DedupKeys.NextVersionedKey | src/flowmate/reminders/sync.py:130-137 | the search loop ends and finds that key |
| DedupKeys.VersionsAreDistinct | src/flowmate/reminders/sync.py:135-137 | two versions of a base never spell the same key |
| ReminderSync.CandidateMeans | src/flowmate/reminders/sync.py:126-127 | a stored reminder matching a schedule's base was made for exactly that item, type, kind and date |
| ReminderSync.ScheduledRowIsNew | src/flowmate/reminders/sync.py:232-242 | the reminder that reconciliation creates never runs into a stored key, so it is always inserted |
| ReminderSync.EnsureAllAppends | src/flowmate/reminders/sync.py:212-244 | the loop over schedules appends exactly the reminders that are needed, judged on the rows it started from |
| ReminderSync.EnsureAllKeepsKeys | src/flowmate/reminders/sync.py:212-244 | keys stay distinct and keep spelling out their own item, type, kind and date |
| ReminderSync.SyncedIs | src/flowmate/reminders/sync.py:175-244 | reconciliation in closed form: unwanted active reminders are cancelled, needed ones appended, nothing else changes |
| ReminderSync.SyncLeavesNothingUnwanted | src/flowmate/reminders/sync.py:200-210 | afterwards every active managed reminder of the item belongs to a current schedule and refers to the item's current date |
| ReminderSync.SyncCoversEverySchedule | src/flowmate/reminders/sync.py:212-244 | afterwards every schedule has an active reminder, unless only final ones exist and may not be replaced |
| ReminderSync.SyncNeverDoubles | src/flowmate/reminders/sync.py:212-244 | an added reminder is the only active one of its schedule, relative to the rows before |
| ReminderSync.SyncIsIdempotent | src/flowmate/reminders/sync.py:175-244 | reconciling again with the same item, policy and instant changes nothing |
| ReminderPlans.SyncCancelsUnplanned | src/flowmate/reminders/sync.py:200-210 | exactly the active managed reminders are cancelled that do not serve the item's type, date, and a kind it gets |
| ReminderPlans.SyncAddsPlanned | src/flowmate/reminders/sync.py:71-118 | an added reminder has its item's type and date, and comes at that date or, for a deadline, the lead before it and later than now |
| ReminderPlans.SyncAddsExactly | src/flowmate/reminders/sync.py:71-118 | a kind is added exactly if the item is open, has a date, gets the kind, and none serves it yet; and then once |
| ReminderPlans.SyncServes | src/flowmate/reminders/sync.py:212-244 | afterwards every kind the item gets is served, actively wherever final reminders may be replaced |
| ReminderService.ReminderTable.SyncWorkItemReminders | src/flowmate/reminders/sync.py:175-244 | the loops over stored reminders and schedules do exactly that to the table |
| ReminderService.ReminderTable.EnsureReminder | src/flowmate/reminders/sync.py:212-243 | one schedule: an active candidate or an irreplaceable final one stands, otherwise a reminder is created under the next free key |
| ReminderService.ReminderTable.CancelUnwantedReminders | src/flowmate/reminders/sync.py:200-210 | exactly the active reminders outside the schedules are cancelled |
| ReminderService.ReminderTable.CancelWorkItemReminders | src/flowmate/reminders/sync.py:149-172 | exactly the item's active reminders are cancelled |
| ReminderService.ReminderTable.ScanCandidates | src/flowmate/reminders/sync.py:214-228 | finds whether a schedule has candidates, an active one, and which keys they use |
| ReminderService.Reminder.CancelRecord | src/flowmate/reminders/sync.py:140-146 | a cancelled record loses its claim, its sleep and its next attempt, and keeps the rest |
| ReminderService.ReminderTable.Create | src/flowmate/reminders/service.py:77-155 | a reminder is stored exactly where its key is new; otherwise the stored one is returned |
| ReminderService.Reminder.Cancel | src/flowmate/reminders/service.py:158-187 | allowed from pending, snoozed, failed and cancelled only; the new state otherwise unchanged |
| ReminderService.Reminder.Sweep | src/flowmate/reminders/service.py:229-261 | an expired lease with a started delivery becomes unknown, one without attempts left fails, any other row stands |
| ReminderService.ReminderTable.ClaimDueReminders | src/flowmate/reminders/service.py:217-304 | sweeps, then claims in the order given up to the limit, each claim under its own fresh token |
| ProtocolMoves.ClaimDueIs | src/flowmate/reminders/service.py:262-304 | no row is claimed twice, only due or abandoned rows are, every other row stands, and the batch stops short of its limit only when nothing claimable is left |
| ReminderService.Reminder.GetClaimedDelivery | src/flowmate/reminders/service.py:307-463 | answers lost, outdated, deferred or deliverable, and stores what each answer means |
| ReminderService.Reminder.CancelClaimed | src/flowmate/reminders/service.py:465-489 | only the holder of the claim can drop the reminder |
| ReminderService.Reminder.MarkStarted | src/flowmate/reminders/service.py:562-583 | succeeds exactly for the holder of a claim whose delivery was not started |
| ReminderService.Reminder.MarkSent | src/flowmate/reminders/service.py:492-519 | only the holder marks it sent, which clears the claim and the start |
| ReminderService.Reminder.MarkFailure | src/flowmate/reminders/service.py:522-559 | only the holder records a refusal: final when permanent or out of attempts, otherwise pending after the delay |
| ReminderService.Reminder.MarkUnknown | src/flowmate/reminders/service.py:586-614 | only the holder records an unknown outcome, which keeps the start |
| ReminderService.Reminder.RetryUnknown | src/flowmate/reminders/service.py:617-642 | only an unknown outcome is retried: at once, with all attempts, and with the start cleared |
| DeliveryChances.ReachedExactly | src/flowmate/reminders/service.py:262-304 | an undisturbed worker reaches the user if and only if the reminder has come up, by its time or because the lease of an earlier claim ran out, has attempts left, was never started, and fits its work item |
| DeliveryChances.AbandonedDecides | src/flowmate/reminders/service.py:269-273 | a claim abandoned before its start is taken up again exactly once its lease has run out, while attempts are left and the reminder fits |
| DeliveryChances.CrashedClaimDecides | src/flowmate/reminders/service.py:269-304 | claim, crash, later claim: the user is reached exactly when the lease has run out and the crash left an attempt |
| ReminderOutcomes.ClaimStatementDecides | src/flowmate/reminders/service.py:229-304 | what a claim statement makes of each abandoned claim: unclear if a delivery had begun, failed in its last attempt, and else up for another claim |
| ReminderOutcomes.ClaimStatementTakesDue | src/flowmate/reminders/service.py:262-304 | it leaves any other reminder alone or claims it, and claims only what is due and has attempts left |
| ReminderOutcomes.CheckDecides | src/flowmate/reminders/service.py:307-463 | the check before a delivery: lost, cancelled as it no longer fits, asleep until quiet hours end, or free to go, column by column |
| ReminderOutcomes.StartDecides | src/flowmate/reminders/service.py:562-583 | a delivery begins exactly for who holds the claim, if none began before |
| ReminderOutcomes.AnswerDecides | src/flowmate/reminders/processor.py:145-198 | what each answer of the messenger means, and that only refusals are certain not to have arrived |
| ReminderOutcomes.MarkDecides | src/flowmate/reminders/service.py:492-614 | what the worker records in the end, column by column, and that whoever lost the claim records nothing |
| ReminderOutcomes.GivingUpCancels | src/flowmate/reminders/service.py:465-489 | giving up a digest cancels it for its holder |
| ReminderOutcomes.UserCancelDecides | src/flowmate/reminders/service.py:158-187 | users cancel what waits or has failed, and nothing else |
| ReminderOutcomes.OperatorRetryDecides | src/flowmate/reminders/service.py:617-642 | operators retry what stayed unclear, and nothing else |
| ReminderOutcomes.DeferralPutsToSleep | src/flowmate/reminders/preferences.py:208-261 | exactly the chosen reminders that are due and no digest sleep until their quiet hours end |
| ReminderOutcomes.DailyDigestIsThere | src/flowmate/reminders/digests.py:346-397 | after scheduling the day has a canonical digest that waits for the given time or was sent |
| ReminderOutcomes.DailyDigestDecides | src/flowmate/reminders/digests.py:346-425 | and what scheduling makes of each stored reminder |
| ReminderOutcomes.DroppingDigestsCancels | src/flowmate/reminders/digests.py:467-492 | exactly the waiting unsent digests of the kind are cancelled |
| DeliveryChances.OutcomeDecides | src/flowmate/reminders/service.py:492-614 | after its outcome was recorded a reminder reaches the user again exactly if it was refused for now with attempts left, once the retry delay is over |
| DeliveryChances.RetryDecides | src/flowmate/reminders/service.py:617-642 | a retried reminder reaches the user exactly from the retry on, while it fits its item |
| DeliveryChances.SnoozeDecides | src/flowmate/reminders/actions.py:147-155 | a snoozed reminder reaches the user exactly from the end of its sleep on, unless a delivery of it was begun and never cleared |
| DeliveryChances.DeferralDecides | src/flowmate/reminders/preferences.py:208-261 | a deferred reminder reaches the user exactly from the end of quiet hours on, if it has attempts left and no delivery of it was begun |
| DeliveryChances.CancelDecides | src/flowmate/reminders/service.py:158-187 | a reminder that its user cancelled reaches nobody |
| DeliveryChances.ReleaseDecides | src/flowmate/reminders/service.py:428-445 | a claim released for quiet hours reaches the user exactly from their end on, even after the last attempt |
| DeliveryChances.NewReminderDecides | src/flowmate/reminders/service.py:77-155 | a new reminder, whichever action made it, reaches the user exactly from its scheduled time on |
| DeliveryChances.ChanceSuffices | src/flowmate/reminders/processor.py:97-198 | an undisturbed worker delivers any reminder that has a chance and fits its work item |
| ReminderService.Reminder.Snooze | src/flowmate/reminders/actions.py:147-155 | a snoozed reminder sleeps until the given time, unclaimed and with all attempts; an earlier start stays recorded |
| ReminderService.ReminderTable.DeferDueReminders | src/flowmate/reminders/preferences.py:208-261 | exactly the due non-digest reminders of users in quiet hours are put to sleep until their end |
| ReminderService.ReminderTable.UpsertDailyDigest | src/flowmate/reminders/digests.py:357-397 | the day's digest is inserted, or refreshed without disturbing a sent one |
| ReminderService.ReminderTable.CancelLegacyDailyDigests | src/flowmate/reminders/digests.py:399-423 | exactly the unsent old digests of the day are cancelled |
| ReminderService.ReminderTable.EnsureDailyDigest | src/flowmate/reminders/digests.py:346-425 | both together |
| ReminderService.ReminderTable.CancelFutureDigestReminders | src/flowmate/reminders/digests.py:467-492 | exactly the unsent waiting digests of a kind are cancelled |
| Worker.ProcessClaim | src/flowmate/reminders/processor.py:97-198 | while others do anything in between, the worker's transactions are exactly its steps of the protocol in the program's order; it calls the messenger only after its start was recorded, and records the answer last |
| Worker.OthersLeaveAttempt | src/flowmate/reminders/processor.py:97-198 | whatever other participants do, a worker's attempt stays where it is in its program |
| Worker.MarkOutcome | src/flowmate/reminders/processor.py:145-198 | each answer of the messenger is recorded by the transaction meant for it |
| BoardSteps.MutatedEvolves | src/flowmate/task_engine/management.py:510-1421 | every request except a snooze leaves stored reminders as they were or cancels them, and none that survives loses its agreement with its work item |
| BoardSteps.SyncEvolves | src/flowmate/reminders/sync.py:175-244 | reconciliation keeps every surviving claim in agreement with its item |
| Protocol.RestingStep | src/flowmate/reminders/service.py:217-642 | the protocol's invariant survives any step after which each row stands or rests, and new rows have no history |
| ProtocolInvariant.StepInv | src/flowmate/reminders/processor.py:77-226 | every action of workers, users, operators and schedulers keeps the protocol's invariant |
| ProtocolInvariant.RunInv | src/flowmate/reminders/processor.py:77-226 | so does every run |
| ProtocolMoves.StepMoves | src/flowmate/reminders/service.py:217-642 | what any one action may do to any one reminder and its delivery history |
| DeliverySafety.AtMostOnce | src/flowmate/reminders/service.py:562-583 | in every run, what may have reached the user is at most one delivery, plus one for each snooze of a sent reminder and one for each operator retry |
| DeliverySafety.LedgerCounts | src/flowmate/reminders/actions.py:81-168 | the history counts no snooze and no retry that nobody asked for |
| DeliverySafety.NoStaleStart | src/flowmate/reminders/service.py:373-402 | whenever a delivery of a managed reminder starts, its item is open at that instant and still has the reminder's date |
| DeliverySafety.SentIsFinal | src/flowmate/reminders/digests.py:377-393 | a sent reminder never starts again unless snoozed; a sent digest never does, whatever follows |
| DeliverySafety.UnclearIsFinal | src/flowmate/reminders/service.py:569-583 | without an operator's retry a started, unclear delivery never starts again, though snoozes and digest refreshes make it claimable |
| DeliverySafety.UnclearIsBlocked | src/flowmate/reminders/service.py:586-614 | every stored unknown outcome is in that situation |
| DeliverySafety.FencedForever | src/flowmate/reminders/service.py:500-559 | an attempt that lost its claim never regains it, starts nothing, and its late outcome changes no row |
| DeliverySafety.DeliveryKeepsItsClaim | src/flowmate/reminders/service.py:229-246 | a delivery under way keeps its claim through a claim statement exactly when its lease, counted from the claim, has not run out |
| DeliverySafety.AttemptsAreBounded | src/flowmate/reminders/service.py:282-304 | attempts stay within 0 and the maximum; a processing reminder has a token and at least one attempt |
| DeliverySafety.HeldRowStands | src/flowmate/reminders/service.py:282-304 | while a claim lasts nothing touches its attempt count |
| DeliverySafety.ReleaseRefundsItsClaim | src/flowmate/reminders/service.py:428-445 | a quiet-hours release gives back exactly the attempt its claim took, whatever happened in between |
| DeliverySafety.ClosedItemsSleep | src/flowmate/reminders/sync.py:149-172 | an item that is not open has no active reminder, managed or custom, unless an operator's retry revived it |
| DigestSafety.DigestsAreSentOnce | src/flowmate/reminders/digests.py:357-397 | one canonical digest for each kind and local day, reaching the user at most once plus once for each operator retry |
| DigestSafety.StepDigests | src/flowmate/reminders/digests.py:314-425 | no action changes what day or kind a digest is for, or adds a second one |
| WorkItemStore.Store.HandleRequest | src/flowmate/task_engine/management.py:498-547 | a request is answered from history, refused, found to have nothing to do, or performed, with exactly that effect on all tables |
| WorkItemStore.Store.FindEvent | src/flowmate/task_engine/management.py:86-106 | finds the entry that an origin has left, if there is one |
| WorkItemStore.WorkItemRecord.SyncPlannerStatus | src/flowmate/task_engine/management.py:181-216 | the planner status follows the record, and the answer says whether it changed |
| WorkItemStore.Store.Complete | src/flowmate/task_engine/management.py:510-547 | completing, and receiving, with the cascade |
| WorkItemStore.Store.CompleteOpenSubtasks | src/flowmate/task_engine/management.py:314-344 | the loop over subtasks |
| WorkItemStore.Store.Cancel | src/flowmate/task_engine/management.py:550-598 | cancelling, with the cascade |
| WorkItemStore.Store.Reopen | src/flowmate/task_engine/management.py:601-682 | reopening, with the undo of the latest completion |
| WorkItemStore.Store.ReopenRequested | src/flowmate/task_engine/management.py:638-669 | the loop over the subtasks to reopen |
| WorkItemStore.Store.Reschedule | src/flowmate/task_engine/management.py:685-727 | rescheduling and its reconciliation |
| WorkItemStore.Store.MoveToBucketAt | src/flowmate/task_engine/management.py:730-819 | moving between overview buckets |
| WorkItemStore.Store.Edit | src/flowmate/task_engine/management.py:927-1054 | a full edit of type and date, with reconciliation and with every history entry it leaves |
| WorkItemStore.Store.EditTitle | src/flowmate/task_engine/management.py:1103-1147 | renaming; an empty title archives the record and detaches it from its parent |
| WorkItemStore.Store.CreateSubtaskOf | src/flowmate/task_engine/management.py:256-311 | a new active task linked to its parent |
| WorkItemStore.Store.AddDecisionTo | src/flowmate/task_engine/management.py:1364-1421 | a new done decision linked to its origin |
| WorkItemStore.Store.CreateFollowUp | src/flowmate/task_engine/management.py:1264-1326 | a new follow-up linked to its origin |
| WorkItemStore.Store.ChangePlannerAt | src/flowmate/task_engine/management.py:347-383 | the planner status a user sets, with its time of transfer |
| WorkItemStore.Store.ConvertToTask | src/flowmate/task_engine/management.py:1329-1361 | an agenda item or question becomes a task, with reconciliation |
| WorkItemStore.Store.SnoozeReminder | src/flowmate/reminders/actions.py:81-168 | a snooze changes one reminder and leaves one entry |
| WorkItemStore.Store.MoveDigestItems | src/flowmate/reminders/digests.py:542-601 | each movable item gets its new date and reconciliation; the first carries the origin |
| WorkItemRuns.AppliedBindsOnce | src/flowmate/task_engine/management.py:136-178 | every applied request leaves exactly one entry with its origin, and no other new entry carries any origin |
| BoardSafety.RepeatsVanish | src/flowmate/task_engine/management.py:498-507 | repeating an applied request later, with any payload and with workers, digests, captures and other requests before, in between and afterwards, ends in the same state of the whole system as not repeating it |
| WorkItemRuns.HandleKeepsOriginsUnique | src/flowmate/task_engine/management.py:86-106 | no origin ever has two entries, so the lookup of one entry is well defined |
| WorkItemRuns.CompleteSubtasksIs | src/flowmate/task_engine/management.py:314-344 | the completion cascade closes and reports exactly the open subtasks |
| WorkItemRuns.CancelSubtasksIs | src/flowmate/task_engine/management.py:568-586 | the cancellation cascade cancels exactly the open subtasks |
| WorkItemRuns.ReopenSubtasksIs | src/flowmate/task_engine/management.py:638-669 | the undo reactivates exactly the listed subtasks that are still linked and done |
| Families.HandleKeepsFamilies | src/flowmate/task_engine/management.py:275-283 | no request gives a subtask a second parent or subtasks of its own |
| Families.HandleKeepsItems | src/flowmate/task_engine/management.py:181-216 | open items have no completion time, done ones have one, and only open plannable work is on the planner, after every request |
| Families.CompleteItemIs | src/flowmate/task_engine/management.py:510-547 | what completion does to every item, and that the history then tells exactly which subtasks it closed |
| Families.ReopenItemIs | src/flowmate/task_engine/management.py:601-682 | what reopening does to every item |
| Families.ReopenUndoesComplete | src/flowmate/task_engine/management.py:601-682 | completing or receiving and then reopening makes active exactly the subtasks that were open, dates and types kept, and leaves all other items alone |
| Families.ReopenAfterReply | src/flowmate/task_engine/management.py:862-892 | after a reply, reopening leaves the other items alone exactly when the latest completion closed no subtask that is done now |
| Families.ReopenAfterReplyCanRevive | src/flowmate/task_engine/management.py:601-682 | requests with distinct origins (completion, reopening, completion of the subtask, reply, reopening) after which a done subtask is revived |
| BoardSafety.ReachedIsSound | src/flowmate/task_engine/management.py:256-344 | in every reachable state of the whole system: a subtask forest of depth one, consistent items, unique origins |
| RequestEffects.ClosingSilencesTheFamily | src/flowmate/task_engine/management.py:314-344 | completing, receiving and cancelling silence every reminder of the record and of the subtasks closed with it, and no other |
| RequestEffects.ReschedulingTakesEffect | src/flowmate/task_engine/management.py:685-727 | the record has the new date and nothing else new but the planner; its active managed reminders are those it gets, one at the date if it changed; nobody else's change |
| RequestEffects.MovingTakesEffect | src/flowmate/task_engine/management.py:777-819 | moved to a dated bucket a record has that as its only date, leaves the inbox by its type, and its reminders follow |
| RequestEffects.MovingToInboxTakesEffect | src/flowmate/task_engine/management.py:772-776 | moved to the inbox it has no date, and exactly its active reminders are cancelled |
| RequestEffects.EditTakesEffect | src/flowmate/task_engine/management.py:927-1054 | edited it has the new type, the new date as its only one if one is given, and its reminders follow |
| RequestEffects.ConversionTakesEffect | src/flowmate/task_engine/management.py:1329-1361 | converted it is a task, and its reminders follow |
| RequestEffects.PlannerFollows | src/flowmate/task_engine/management.py:181-216 | what the planner makes of a changed record, status by status |
| RequestOutcomes.AppliedExactly | src/flowmate/task_engine/management.py:86-135 | a request is applied exactly if its origin left no entry, its card is not stale, and the record is one it takes; otherwise nothing changes |
| RequestOutcomes.CompletingTakesEffect | src/flowmate/task_engine/management.py:510-547 | completing and receiving close the record with exactly its open subtasks, which the entry lists |
| RequestOutcomes.CancellingTakesEffect | src/flowmate/task_engine/management.py:550-598 | cancelling takes the record and its open subtasks |
| RequestOutcomes.ReopeningTakesEffect | src/flowmate/task_engine/management.py:601-682 | reopening brings back the record, and the subtasks its latest completion closed that are still linked and done |
| RequestOutcomes.ReplyTakesEffect | src/flowmate/task_engine/management.py:862-892 | a reply closes its follow-up alone |
| RequestOutcomes.ArchivingTakesEffect | src/flowmate/task_engine/management.py:895-924 | archiving takes the record alone |
| RequestOutcomes.SilencedMeans | src/flowmate/reminders/sync.py:140-172 | what cancelling with its record leaves of a reminder |
| RequestOutcomes.CreationTakesEffect | src/flowmate/task_engine/management.py:256-311 | new subtasks, decisions and follow-ups: record, link and entries, and nobody's reminders change |
| RequestOutcomes.CaptureTakesEffect | src/flowmate/task_engine/conversion.py:227-262 | a capture makes one record whose reminders follow its dates, and at most one reminder of the user's own at the time asked for |
| RequestOutcomes.PlannerChangeTakesEffect | src/flowmate/task_engine/management.py:347-383 | a planner status set by the user, with its time of transfer |
| RequestOutcomes.ContentChangesTakeEffect | src/flowmate/task_engine/management.py:1057-1147 | changes of content leave their entry and nothing else but the planner |
| RequestOutcomes.BlankTitleTakesEffect | src/flowmate/task_engine/management.py:1121-1134 | an empty title archives the record and takes exactly its link to its parent |
| RequestOutcomes.SnoozeTakesEffect | src/flowmate/reminders/actions.py:147-168 | a snooze, column by column |
| RequestOutcomes.MovingDigestItemsTakesEffect | src/flowmate/reminders/digests.py:542-601 | exactly the movable ones of the listed records get their new dates |
| RequestOutcomes.EditEntriesTell | src/flowmate/task_engine/management.py:992-1047 | a full edit's history tells whether topic, people and date changed |
| RequestOutcomes.EntryTells | src/flowmate/task_engine/management.py:136-178 | the entry under a request's origin tells which request it was and on which record |
| DraftText.UniqueTexts | src/flowmate/ai/analysis.py:171-180 | the loops over several lists keep the first of each text |
| DraftText.UniqueIs | src/flowmate/ai/analysis.py:171-180 | every text is represented, none is invented, and no two that remain say the same |
| DraftText.OneWord | src/flowmate/ai/analysis.py:143-144 | a text without spaces is one word, in whatever spacing it stands |
| DraftText.NormalOfTwo | src/flowmate/ai/analysis.py:143-144 | the normal form folds each letter and puts one space between words |
| DraftText.ParagraphOccurs | src/flowmate/ai/analysis.py:143-144 | the normalized form of a paragraph occurs in that of the text joined from it |
| DraftItems.PreparedIs | src/flowmate/ai/analysis.py:341-392 | afterwards every external condition is in the description and the due date is normal; nothing else changed |
| DraftItems.PreparedTells | src/flowmate/ai/analysis.py:341-392 | a due day means its last second, and the description goes on with exactly conditions of the item that hang on no other |
| DraftItems.SettledStands | src/flowmate/ai/analysis.py:367-392 | an item in that form is not changed again |
| DraftItems.MergedIs | src/flowmate/ai/analysis.py:395-422 | merging two items of one key keeps the key, the form, and the dependencies of both |
| DraftItems.MergedTells | src/flowmate/ai/analysis.py:395-422 | merging pools people, topics, notes, missing fields and ambiguities and takes the lower confidence |
| DraftItems.MergedExactlyIfSame | src/flowmate/ai/analysis.py:147-168 | two items are merged if and only if type, title, description, due date and reminder say the same |
| DraftItems.MergeDuplicates | src/flowmate/ai/analysis.py:466-483 | the merging loop with its table of keys |
| DraftItems.RemapDependencies | src/flowmate/ai/analysis.py:425-458 | the renumbering loop with its set of seen dependencies |
| DraftItems.RemappedAllIs | src/flowmate/ai/analysis.py:425-458 | renumbered dependencies are images of stated ones, none twice, and each stated one is represented unless it points at its own item |
| DraftItems.SameDependencyMeans | src/flowmate/ai/analysis.py:442-448 | two renumbered dependencies count as one exactly if relation, target, words and condition are the same |
| DraftItems.DeduplicateItems | src/flowmate/ai/analysis.py:461-485 | the whole deduplication, with the number each input ended up under |
| DraftItems.OutputsAreCanonical | src/flowmate/ai/analysis.py:461-485 | distinct keys in order of first occurrence; every input goes to the output with its key and every output has one |
| DraftItems.OutputsAreClean | src/flowmate/ai/analysis.py:433-452 | targets lie among the outputs, never on the item itself, and nothing is stated twice |
| DraftItems.DeduplicationIsIdempotent | src/flowmate/ai/analysis.py:461-485 | a second run changes nothing, copied conditions included |
| DraftItems.OutputDependencyWasStated | src/flowmate/ai/analysis.py:425-458 | every targeted dependency of an output was stated by an input it stands for |
| DraftItems.StatedDependencyIsOutput | src/flowmate/ai/analysis.py:425-458 | every stated dependency between items that did not merge survives with its relation |
| DraftItems.KeptItemsHaveNoSelf | src/flowmate/ai/analysis.py:526-533 | deduplicated or kept one by one, no analysed item depends on itself |
| DraftItems.KeptDependencyWasStated | src/flowmate/ai/analysis.py:526-533 | either way a targeted dependency of an analysed item was stated, with its relation |
| DraftItems.StatedDependencyIsKept | src/flowmate/ai/analysis.py:526-533 | either way a stated dependency between items that did not merge is kept, with its relation |
| DraftConversion.RelationsAreCalledFor | src/flowmate/task_engine/conversion.py:509-554 | one relation for each that the dependencies mean, no other, none twice |
| DraftConversion.BeforeIsAfter | src/flowmate/task_engine/conversion.py:529-540 | "A before B" and "B after A" are the same directed relation, and nothing else coincides |
| DraftConversion.RelationWasStated | src/flowmate/task_engine/conversion.py:509-554 | from provider to relation, for deduplicated items and for those kept one by one: every created relation comes from a dependency some input item stated |
| DraftConversion.StatedBecomesRelation | src/flowmate/task_engine/conversion.py:509-554 | and, on both paths, every stated dependency between chosen work items that did not merge becomes its relation |
| DraftConversion.AnalysedHasNoSelfRelation | src/flowmate/task_engine/service.py:485-486 | converting an analysed draft never relates an item to itself, whether its items were deduplicated or kept one by one |
| DraftConversion.Converter.Convert | src/flowmate/task_engine/conversion.py:133-290 | the conversion as it runs, with rollback |
| DraftConversion.Converter.BuildRelations | src/flowmate/task_engine/conversion.py:509-554 | the nested loops, stopping at a relation of an item to itself |
| DraftConversion.Converter.ExistingOutputs | src/flowmate/task_engine/conversion.py:306-332 | the stored outputs of the requested items |
| DraftConversion.ConvertedIsAllOrNothing | src/flowmate/task_engine/conversion.py:133-290 | a failed conversion changes nothing; a successful one leaves an output of the right kind for every chosen item |
| DraftConversion.ConvertedKeepsOneOutputEach | src/flowmate/task_engine/conversion.py:306-357 | no draft item ever gets two outputs, over any selections |
| DraftConversion.ConvertedMakes | src/flowmate/task_engine/conversion.py:190-290 | what a conversion makes: an output of its own name for each chosen item, in their order, and the relations between these |
| DraftConversion.ConversionIsIdempotent | src/flowmate/task_engine/conversion.py:165-169 | repeating a successful conversion returns the same outputs and changes nothing |
| DraftRepeats.TablesDecide | src/flowmate/task_engine/conversion.py:306-357 | what the tables decide: stored outputs are returned exactly if every requested item has its own, of its kind; the request is partly stored exactly if some have an output and not all their own; outputs are made exactly if none has one and all can be made |
| DraftRepeats.RepeatAfterwards | src/flowmate/task_engine/conversion.py:147-169 | a repeat after any conversions, edits, deletions, transitions and new analyses: it returns the same outputs exactly while each is left with its item's kind, and makes new ones only after every old one was deleted or lost its item |
| DraftRepeats.AfterwardsTraces | src/flowmate/task_engine/remaining.py:163-199 | whatever happens to a draft, no item gets a second output, and an old output keeps its source or loses it for good |
| DraftRepeats.DeletedNoteIsMadeAgain | src/flowmate/task_engine/remaining.py:163-199 | a confirmed note that was deleted is made again by a repeated confirmation |
| DraftRepeats.RecoveredTaskIsMadeTwice | src/flowmate/db/drafts.py:183-239 | a confirmed task whose draft is recovered, changed and confirmed again exists twice |
| DraftRepeats.DeletedNoteBlocks | src/flowmate/task_engine/conversion.py:331-334 | with a task beside the deleted note the repeat is refused as partly stored |
| DraftConversion.PartialConversionIsRefused | src/flowmate/task_engine/conversion.py:331-334 | a request of which only some items are stored is refused |
| Itemization.NormalizeItemization | src/flowmate/ai/service.py:424-455 | at most one more call; one item for each explicit segment or failure; the missing-fallback error never comes up; an accepted answer is untouched |
| Itemization.RepairExplicit | src/flowmate/ai/service.py:486-517 | a repair is asked for exactly when the count differs from the segments, and trusted only if it matches them |
| Itemization.RepairConsolidation | src/flowmate/ai/service.py:457-484 | a consolidation is trusted exactly if it is one single item |
| Itemization.ParseDraft | src/flowmate/ai/service.py:389-422 | at most two calls in all; the one case in which renumbering fails, both ways |
| Itemization.SeveralStay | src/flowmate/ai/service.py:424-455 | several items stay several exactly if the text does not ask for one and asks for several, separates them, or the provider is sure |
| Itemization.AdjustedTells | src/flowmate/ai/service.py:414-415 | only tasks become follow-ups, and only items without a date get the shared one |
| Itemization.RenumberingCanFail | src/flowmate/ai/service.py:389-422 | an answer the schema admits for which renumbering fails |
| LoginCodes.LoginStore.IssueLoginCode | src/flowmate/auth/pwa.py:107-169 | refuses within a full window, otherwise invalidates older codes and issues one |
| LoginCodes.LoginStore.VerifyLoginCode | src/flowmate/auth/pwa.py:172-251 | checks the latest usable code, counts wrong guesses, uses it once, and ends surplus sessions |
| LoginCodes.LoginStore.RevokeSession | src/flowmate/auth/pwa.py:289-302 | ends one live session |
| LoginCodes.LoginStore.DeleteExpired | src/flowmate/stabilization/cleanup.py:125-135 | forgets expired codes and sessions |
| LoginCodes.IssueKeepsWindows | src/flowmate/auth/pwa.py:115-134 | no window ever holds more than the limit, although clean-up has forgotten old codes |
| LoginCodes.LagBreaksTheWindow | src/flowmate/stabilization/cleanup.py:125-127 | the bound on how far a request's clock may lag behind a clean-up is exact, for every request limit |
| LoginCodes.CodesAreLimited | src/flowmate/auth/pwa.py:115-225 | in every run: issued codes per window, one usable code, wrong guesses per code, each code used at most once |
| LoginCodes.RequestDecides | src/flowmate/auth/pwa.py:107-169 | a request is refused exactly in a full window; otherwise its secret is the one usable code for its lifetime, and every other ends |
| LoginCodes.LoginEndsOldest | src/flowmate/auth/pwa.py:212-233 | a login ends exactly as many live sessions as must go, the oldest ones |
| LoginCodes.LoginSucceedsExactly | src/flowmate/auth/pwa.py:172-251 | a guess opens a session if and only if it is the secret of the latest unused valid code, unexpired and with guesses left; then that code is used and one session is added |
| LoginCodes.LoginFailsExactly | src/flowmate/auth/pwa.py:193-214 | a failing guess costs an attempt where the code could be entered, ends the code with the last one or if it could not, and changes nothing else |
| LoginCodes.EverySessionWasEarned | src/flowmate/auth/pwa.py:172-251 | in every run each session was opened by a login whose guess is the secret of an earlier request, within that code's lifetime |
| LoginCodes.LogoutEndsOne | src/flowmate/auth/pwa.py:289-302 | a logout ends its live session for good and no other |
| LoginCodes.CleanUpTakesOldOnly | src/flowmate/stabilization/cleanup.py:125-135 | clean-up takes exactly what ended longer ago than the retention |
| LoginCodes.OrderedIs | src/flowmate/auth/pwa.py:212-223 | the list of live sessions is complete, without repetition and oldest first |
| LoginCodes.LoginKeepsSessionsFew | src/flowmate/auth/pwa.py:224-233 | a login leaves at most the allowed number alive, then and later, and ends older sessions than it keeps |
| LoginCodes.SessionsAreLimited | src/flowmate/auth/pwa.py:212-246 | in every run, from the latest login on |
| LoginCodes.AdviceIsShort | src/flowmate/auth/pwa.py:129-134 | waiting exactly as long as advised helps if and only if less than a second was left |
| LoginCodes.AdviceFails | src/flowmate/auth/pwa.py:129-134 | a run in which a request that waited as advised is refused again |
| LoginCodes.WaitingHelps | src/flowmate/auth/pwa.py:129-134 | a request that waits one second longer than advised is served |
| LocalTime.ResolveLocal | src/flowmate/reminders/timezone.py:5-19 | the first whole-minute step that really occurs, at its first occurrence; none only if no step occurs |
| LocalTime.ResolvesToOne | src/flowmate/reminders/timezone.py:5-19 | no two instants both answer for one wall time |
| LocalTime.FirstReading | src/flowmate/reminders/timezone.py:12-17 | if a wall time occurs, the reading before the change is its first occurrence, so the second reading is never needed |
| LocalTime.ShortGapsResolve | src/flowmate/reminders/timezone.py:11-19 | a zone without gaps over 180 minutes has an answer for every wall time |
| LocalTime.QuietHoursEnd | src/flowmate/reminders/timezone.py:22-42 | deferral happens exactly within the cyclic window, until the window's end resolved |
| LocalTime.WindowLasts | src/flowmate/reminders/timezone.py:22-42 | the end lies strictly ahead, at most a day away, and the window lasts until then |
| LocalTime.QuietHoursLast | src/flowmate/reminders/timezone.py:22-42 | with no change of offset in between every instant until the end is quiet, and the answer lies ahead exactly when the end had not occurred before |
| LocalTime.DeferredUntil | src/flowmate/reminders/preferences.py:204-205 | between 0 and 119 seconds are added |
| LocalTime.DeferralsSpread | src/flowmate/reminders/preferences.py:204-205 | whole seconds, the same for two reminders exactly if their identities agree modulo 120 |
| LocalTime.LaterToday | src/flowmate/task_engine/rescheduling.py:90-103 | the next quarter of an hour three hours on, failing exactly when that leaves the day |
| LocalTime.NextWeekday | src/flowmate/task_engine/rescheduling.py:62-66 | the loop ends at the first later working day |
| LocalTime.ResolvePreset | src/flowmate/task_engine/rescheduling.py:73-117 | each preset's wall time, resolved; unavailable exactly for a later-today that leaves the day; unresolved only if no step of that wall time occurs |
| LocalTime.PresetMeans | src/flowmate/task_engine/rescheduling.py:73-117 | the presets in days, weekdays and times of day |
| LocalTime.ResolveBucket | src/flowmate/task_engine/rescheduling.py:119-145 | the target of today and tomorrow; unresolved exactly if no step of the wall time occurs, unavailable only if the time and the last quarter of an hour have passed |
| LocalTime.LaterTodayIsSoon | src/flowmate/task_engine/rescheduling.py:90-117 | on a day without changes: at least three hours and less than three and a quarter away, same day |
| LocalTime.TodayIsAhead | src/flowmate/task_engine/rescheduling.py:139-145 | on a day without changes the target of today is strictly later than now and on the same day |
| AiJobs.JobQueue.EnqueueJob | src/flowmate/stabilization/jobs.py:22-69 | the same operation is never enqueued twice |
| AiJobs.JobQueue.ClaimDueJobs | src/flowmate/stabilization/jobs.py:72-110 | claims due or expired jobs with attempts left, each under a fresh token |
| AiJobs.JobQueue.CompleteJob | src/flowmate/stabilization/jobs.py:113-137 | only the holder of the lease completes a job |
| AiJobs.JobQueue.CompleteEntityJobs | src/flowmate/stabilization/jobs.py:140-166 | exactly the unfinished jobs of the entity and kinds are completed |
| AiJobs.JobQueue.FailJob | src/flowmate/stabilization/jobs.py:169-201 | only the holder gives a job back, or up when attempts are spent |
| AiJobs.EnqueueDecides | src/flowmate/stabilization/jobs.py:22-69 | enqueuing adds a job due at once unless the operation has one |
| AiJobs.ClaimDecides | src/flowmate/stabilization/jobs.py:72-110 | a claim leases exactly the listed jobs that come up, each under a fresh token, and leaves the others alone |
| AiJobs.ReportDecides | src/flowmate/stabilization/jobs.py:113-201 | reports count only from who holds the lease: completed, waiting for its delay, or abandoned without attempts |
| AiJobs.EntityDecides | src/flowmate/stabilization/jobs.py:140-166 | what happens to an entity happens to exactly its jobs |
| AiJobs.ClaimsAreBounded | src/flowmate/stabilization/jobs.py:72-110 | in its whole life a job is claimed at most as often as allowed, and while it is there no operation has a second one |
| AiJobs.LateReportsAreIgnored | src/flowmate/stabilization/jobs.py:113-201 | a worker that lost its lease changes nothing any more |
| AiJobs.FinishedIsFinal | src/flowmate/stabilization/jobs.py:140-201 | completed and abandoned jobs stay as they are until, and exactly until, their entity's jobs are deleted |
| AiJobs.JobQueue.DeleteEntityJobs | src/flowmate/task_engine/remaining.py:230-235 | with a draft exactly its jobs are deleted |
| AiJobs.StrandedExactlyInLastAttempt | src/flowmate/stabilization/jobs.py:86-97 | a running job on which nobody reports any more, and which is not deleted, stays as it is in every run if and only if its last allowed attempt is the one it is in |
| AiJobs.ReclaimedWithAttemptsLeft | src/flowmate/stabilization/jobs.py:86-110 | once its lease has run out such a job is claimed again exactly when it has attempts left |
| AiJobs.StrandingHappens | src/flowmate/stabilization/jobs.py:86-97 | two actions from the empty queue that strand a job |

## Left out

* Telegram, speech, the language model's text, HTTP, cookies and the web client: only their outcomes enter, as inputs.
* SQL and the object-relational layer, and their workspaces: one user's tables in one canonical workspace. The flag
  `legacy` marks digests of another workspace, and moving a record between workspaces (src/flowmate/task_engine/management.py:386-495) is not modelled.
* Titles, descriptions, priorities, topics, people, sort ranks and notes of stored work items: requests that change only
  those leave an entry in the history (`OpEditDetails`, `OpAddNote`). A full edit is told whether topic and people change.
* Comparing a card's revision with the stored one: a request says whether it is stale.
* Error texts, messages and time zones stored on reminders, and the list that reconciliation returns.
* Deletion of work items: no code of the program deletes one.
* Progress in general: `DeliveryChances.ChanceSuffices` covers one undisturbed worker, not fair scheduling.
* Planner status given at conversion: nothing in the program passes one.
* Which notes are unprocessed and unconnected, and whether a card of a draft is stale: `DraftRepeats` lets a note be deleted
  and a draft be edited or deleted at any time its status allows, so its results hold for every such case.
* Topics and people that a conversion looks up or creates, and audit records.
* The contents of an opened digest and its formatting, and Telegram receipts.
* Regular expressions over the source text: `Itemization.Source` carries their findings, and case folding is a parameter.
* The zone offset inside a draft's due date: dates in drafts are wall-clock seconds of the user.
* Hashing of codes and tokens: a guess matches or does not.
* Passwords, origins and request forgery: no security analysis is intended.
- LocalTime.QuietHoursLast: assumes that the offset does not change before the window's end, because the wall-clock window has no single meaning across a change.
- LocalTime.LaterTodayIsSoon: speaks of days without a change of offset, because a wall time that is skipped or repeated is not a fixed distance away.
- LocalTime.TodayIsAhead: speaks of days without a change of offset, because the program compares wall times as they read.
- LoginCodes.CodesAreLimited: assumes that a request's clock lags behind an earlier clean-up by less than retention and code lifetime exceed the window, because the clean-up forgets by its own clock; `LoginCodes.LagBreaksTheWindow` shows that the bound is exact.
- LoginCodes.IssueKeepsWindows: assumes the same of the latest clean-up.
