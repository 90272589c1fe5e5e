# Dashboard protocols in Dafny

A model, with proofs, of the stateful core of the dashboard and of the runtime sync script:

- `SubmitMachine`, `SubmitRetention`, `SessionCockpit`, `SubmissionLifecycle`, `SubmissionWithdrawal`,
  `SubmissionRuns`, `WithdrawnText`, `WithdrawnWitnesses`, `ReliableSubmit`: a message is submitted under an immutable request id to one
  generation of a runner. Receipts, reconciliations, status pages, withdrawal replies, lost replies and
  epoch mismatches arrive late and in any order. The client must not send twice, weaken the evidence of a
  possible send, overwrite a newer draft, lose withdrawn text, or poll for ever.
- `CatalogPoll`: several readers share one physical GET, unite their exclusions, and are revoked by a
  generation counter.
- `ServedAges`, `DashboardStore`: snapshots and deltas merged with reuse of unchanged nodes, against a plain
  rebuild.
- `Sessions`, `SpawnTree`, `RailModel`, `RailSections`, `Sorting`: the spawn forest and the chat rail.
- `StreamLiveness`: the watchdog of an event stream. `PairChange`: the serialized change of model and effort.
- `SyncRuntime`, `TreeSwap`: the filtered copy of a tree and its crash-safe swap.

`Prelude` holds the option type and three counting facts.

## How it is modelled

The code between two awaits is one atomic step. Runs are sequences of steps chosen by an adversary that
holds the user, the delayed replies, the clock and the runner; theorems about runs quantify over all of them.
The runner may move in any way, except that its definitive states are absorbing; this is the one assumption
about the server. A class stands for each part of
the source that updates fields (the cockpit store, the lifecycle and withdrawal clients, the catalog poller,
the dashboard store, the watchdog, the file system); its methods are proved equal to functions on values, and
the theorems are about those functions: what must never happen, and under which exact condition each required action does.
`ReliableSubmit` runs its loops against an `Environment` whose replies and clock readings are arbitrary scripts
with a clock that does not go back; its contracts say what is posted, asked and returned in terms of them.

Findings about the source, each with its exact condition:

- The docstring of `replace_tree` says no crash leaves a missing target. A crash between its two renames does
  (`CrashCanLeaveNoTarget`, `MissingIff`), and the next run removes both remaining trees before it has a new
  copy (`RerunCanLoseEveryTree`, `OldTreeIff`).
- `mergeKeyed` compares sizes, so a list with a repeated key can hide a removal (`RepeatedKeyHidesRemoval`,
  `MergeRefinesRebuildIff`) or make every application of the same snapshot write (`RepeatedKeyWritesForever`,
  `SnapshotIdempotentIff`).
- A pending withdrawal loses its claim on the text by an epoch mismatch, a not-found reply or the progress of
  its request (`AuthorityLossForfeitsText`); `ClaimDroppedIff` says exactly when.
- A dismissed recovery can return, because the status follow-up judges against the version it reads after its
  await (`DismissedRecoveryReappears`); `OwnerRecoversIff` and `DismissedStaysGoneIff` say exactly when, and that
  no page brings it back.
- A second withdrawal over an untouched restored draft replaces it (`SecondWithdrawalReplaces`);
  `DraftDisplacedIff` and `DraftOverRuns` say exactly what displaces a draft, `RecoveryOverRuns` what ends a
  recovery.
- A stale loss of availability does not join with dispatching (`SettleIsJoin` gives the exact exception).

## Model

| member | source | states |
|---|---|---|
| `SubmitMachine.SettleIsJoin` | dashboard/src/data/submitMachine.ts:155-186 | one settled observation moves the record to the join of its evidence and the incoming evidence, except exactly when a stale loss of availability meets dispatching, which stays dispatching |
| `SubmitMachine.JoinIsLeastUpperBound` | dashboard/src/data/submitMachine.ts:112-126 | availability loss joined with dispatching is unknown, and this join is the least upper bound of the order of evidence |
| `SubmitMachine.FoldIsJoin` | dashboard/src/data/submitMachine.ts:128-186 | folding any sequence of non-stale observations ends at the least upper bound of all the evidence seen |
| `SubmitMachine.ArrivalOrderIrrelevant` | dashboard/src/data/submitMachine.ts:128-186 | the same non-stale observations in any order end at the same evidence |
| `SubmitMachine.FoldKeepsWord` | dashboard/src/data/submitMachine.ts:155-186 | if the record and all arrivals speak of one definitive word, stale or not, no other definitive word is ever shown |
| `SubmitMachine.ArrivalOrderKeepsWord` | dashboard/src/data/submitMachine.ts:155-186 | with one definitive word in play, every order of non-stale arrivals shows the same word in the end |
| `SubmitMachine.WatchAnchorFixed` | dashboard/src/data/submitMachine.ts:265-300 | once a watch has started no sequence of later writes moves its starting time |
| `SubmitMachine.WatchBounded` | dashboard/src/data/submitMachine.ts:265-327 | 120 s after the first dispatching or unknown projection no sequence of later writes leaves the watch active |
| `SubmitMachine.WatchLasts` | dashboard/src/data/submitMachine.ts:265-327 | from the first dispatching or unknown word at t0, through any further words that leave the outcome open, the watch is active up to t0 + 120 s and expired after it |
| `SubmitMachine.QueuedIsWatched` | dashboard/src/data/submitMachine.ts:316-327 | a queued word that no watch anchors is watched for 120 s from the moment it was shown |
| `SubmitMachine.DefinitiveEndsWatch` | dashboard/src/data/submitMachine.ts:316-327 | a definitive word ends the watch at once |
| `SubmitMachine.PhasesTellStatesApart` | dashboard/src/data/submitMachine.ts:215-290 | phases tell lifecycle states apart, and a receipt has the phase of the state it stands for |
| `SubmitMachine.SettleChoosesWord` | dashboard/src/data/submitMachine.ts:155-186 | exactly which word a settled record shows: the stronger, of equal rank the one that is not stale, unknown where the incomparable classes meet |
| `SubmitRetention.CompactIdempotent` | dashboard/src/data/submitRetention.ts:27-40 | compacting a compacted history changes nothing, repeated ids included |
| `SubmitRetention.CompactBound` | dashboard/src/data/submitRetention.ts:27-40 | with distinct ids, compaction keeps of the settled records exactly the newest 64 |
| `SubmitRetention.RetentionOverRuns` | dashboard/src/data/sessionCockpitStore.ts:505-519 | over every run of upserts the history has distinct ids, in the order of the insertions that put them there, at most 64 settled records, and is a fixed point of compaction |
| `SubmitRetention.ProtectedSurvivesRuns` | dashboard/src/data/submitRetention.ts:11-40 | a record in a protected phase survives every run of upserts of other requests |
| `SubmitRetention.UpsertFrame` | dashboard/src/data/sessionCockpitStore.ts:505-519 | an upsert changes no record of another request, except by eviction, and never evicts the protected record it writes |
| `SubmitRetention.UpsertRetentive` | dashboard/src/data/sessionCockpitStore.ts:505-519 | an upsert into a history with distinct ids restores the bound on settled records |
| `SubmitRetention.RewriteProtected` | dashboard/src/data/submitRetention.ts:27-40 | rewriting one protected record as another evicts nothing and changes nothing else |
| `SubmitRetention.ForgettableIff` | dashboard/src/data/submitRetention.ts:11-25 | a record may be forgotten if and only if its phase is that of a definitive word, not found, or released |
| `SubmitRetention.UpsertStoresIff` | dashboard/src/data/sessionCockpitStore.ts:505-519 | a written record is stored if and only if it is protected or among the newest 64 settled ones |
| `SubmitRetention.NewRecordStored` | dashboard/src/data/sessionCockpitStore.ts:505-519 | the record of a request not yet in the history is always stored |
| `SubmitRetention.NothingEvicted` | dashboard/src/data/submitRetention.ts:27-40 | nothing is evicted while the settled records fit |
| `SessionCockpit.SessionCockpitStore.SetComposerDraft` | dashboard/src/data/sessionCockpitStore.ts:325-331 | the new draft, with the revision raised by one, and no other session touched |
| `SessionCockpit.SessionCockpitStore.ReplaceComposerDraftIfRevision` | dashboard/src/data/sessionCockpitStore.ts:332-348 | replaces the draft exactly at the expected revision |
| `SessionCockpit.SessionCockpitStore.ClearComposerDraftIfRevision` | dashboard/src/data/sessionCockpitStore.ts:349-365 | clears the draft exactly at the submitted revision |
| `SessionCockpit.SessionCockpitStore.EnqueueSubmit` | dashboard/src/data/sessionCockpitStore.ts:491-497 | appends to the queue and keeps its newest 64 |
| `SessionCockpit.EnqueueExact` | dashboard/src/data/sessionCockpitStore.ts:491-497 | the entry just queued is the last one; before it stand the newest of the others in order, all of them while there is room |
| `SessionCockpit.SessionCockpitStore.DequeueSubmit` | dashboard/src/data/sessionCockpitStore.ts:498-504 | removes the request from the queue |
| `SessionCockpit.SessionCockpitStore.UpsertSubmitRecord` | dashboard/src/data/sessionCockpitStore.ts:505-519 | the history after the write is the compacted upsert the retention theorems are about |
| `SessionCockpit.SessionCockpitStore.DismissWithdrawalRecoveryIfMatches` | dashboard/src/data/sessionCockpitStore.ts:522-538 | empties the slot exactly for a recovery of that request at the expected revision |
| `SubmissionLifecycle.ObservationWrites` | dashboard/src/data/submissionLifecycleClient.ts:627-670 | a preserved observation writes nothing; an applied one rewrites the record to show exactly the settled observation with its version raised by one, identity and text kept |
| `SubmissionLifecycle.ObservationFrame` | dashboard/src/data/submissionLifecycleClient.ts:627-670 | an observation of one request never alters the record of another |
| `SubmissionLifecycle.ObservationQueue` | dashboard/src/data/submissionLifecycleClient.ts:612-670 | an observation takes its request out of the queue if and only if it is applied and settles as anything but queued, the withdrawn branch included |
| `SubmissionLifecycle.DequeueExact` | dashboard/src/data/sessionCockpitStore.ts:498-504 | dequeuing keeps exactly the entries of other requests, in their order and number |
| `SubmissionLifecycle.AutomaticRestoreIsFinal` | dashboard/src/data/submissionLifecycleClient.ts:458-471 | while its record is retained, text restored automatically is never saved by a later verdict |
| `SubmissionLifecycle.ObservationClimbs` | dashboard/src/data/submissionLifecycleClient.ts:370-387 | no observation lowers the evidence of any record, and a definitive word appears only if the observation brought it |
| `SubmissionLifecycle.WithdrawnVerdictSavesText` | dashboard/src/data/submissionLifecycleClient.ts:491-556 | an applied withdrawn verdict saves the text if and only if its withdrawal is pending and not yet restored; then the exact text is in the draft or in the recovery slot, in the draft if and only if the revision is the one captured at issue |
| `SubmissionLifecycle.ObservationDraft` | dashboard/src/data/submissionLifecycleClient.ts:491-518 | the draft and its revision change only by an automatic restore, at the captured revision |
| `SubmissionLifecycle.ObservationSlot` | dashboard/src/data/submissionLifecycleClient.ts:491-569 | the withdrawal slot is left, emptied, or filled with the recovery of the selected withdrawal |
| `SubmissionLifecycle.ObservationSavesIff` | dashboard/src/data/submissionLifecycleClient.ts:520-556 | an observation saves text if and only if it is an applied withdrawn word of an unresolved withdrawal, and into the draft if and only if the captured revision is the current one |
| `SubmissionLifecycle.RecoveryAppearsIff` | dashboard/src/data/submissionLifecycleClient.ts:491-556 | a recovery appears in the slot if and only if text is saved away from its captured revision |
| `SubmissionLifecycle.ClaimDroppedIff` | dashboard/src/data/submissionLifecycleClient.ts:558-670 | a pending withdrawal loses its claim, its text neither saved nor found restored, if and only if the observation is preserved and owned, or settles as a word other than queued and withdrawn and is owned or no owner is in flight; and exactly when the slot is emptied |
| `SubmissionLifecycle.RecoveryOutlives` | dashboard/src/data/submissionLifecycleClient.ts:627-670 | no observation displaces a recovery or touches the draft beside it |
| `SubmissionLifecycle.QuietSweep` | dashboard/src/data/submissionLifecycleClient.ts:750-770 | a record whose watch is over is settled to the endgame if still open, and no later time makes it watched again |
| `SubmissionLifecycle.QuietPollerRetires` | dashboard/src/data/submissionLifecycleClient.ts:731-805 | with an empty queue, no pending withdrawal and no active watch, a pass has no targets and none remain, so the poller retires |
| `SubmissionLifecycle.PollTargetsIff` | dashboard/src/data/submissionLifecycleClient.ts:731-770 | a pass asks for a request if and only if it is queued, its withdrawal is pending, or its watch is active |
| `SubmissionLifecycle.TargetsCarryEpochs` | dashboard/src/data/submissionLifecycleClient.ts:731-770 | each request is asked for under the epoch of its queue entry, its pending withdrawal or its record |
| `SubmissionLifecycle.RemainingIff` | dashboard/src/data/submissionLifecycleClient.ts:791-805 | a pass counts exactly the requests still owed a poll, and returns 0 if and only if there are none |
| `SubmissionLifecycle.DispatchedIsPolled` | dashboard/src/data/submissionLifecycleClient.ts:731-805 | for 120 s after its first dispatching or unknown word a record whose outcome is open is asked for by every pass, which returns at least 1; the first pass after that puts it into the endgame |
| `SubmissionLifecycle.SweepRetentive` | dashboard/src/data/submissionLifecycleClient.ts:750-770 | settling expired watches keeps the history retentive and evicts nothing |
| `SubmissionLifecycle.SweepFind` | dashboard/src/data/submissionLifecycleClient.ts:750-770 | the pass changes a record only by settling its expired watch |
| `SubmissionLifecycle.LifecycleClient.ClearSettledWithdrawal` | dashboard/src/data/submissionLifecycleClient.ts:558-569 | empties a pending slot of that request, except for a non-owner while the owner is in flight |
| `SubmissionLifecycle.LifecycleClient.RestoreOrRecoverWithdrawal` | dashboard/src/data/submissionLifecycleClient.ts:491-518 | restores the text at the captured revision, else keeps it for recovery |
| `SubmissionLifecycle.LifecycleClient.ResolveAuthoritativeWithdrawal` | dashboard/src/data/submissionLifecycleClient.ts:520-556 | the stored state becomes the specified resolution of a withdrawn verdict, no other session touched |
| `SubmissionLifecycle.LifecycleClient.ApplyLifecycleObservation` | dashboard/src/data/submissionLifecycleClient.ts:627-670 | the stored state becomes the specified application of the observation, no other session touched |
| `SubmissionLifecycle.LifecycleClient.LifecyclePollTargets` | dashboard/src/data/submissionLifecycleClient.ts:731-770 | the targets of a pass and the settled history, by a loop that reads the history once while rewriting it |
| `SubmissionLifecycle.LifecycleClient.ApplyReports` | dashboard/src/data/submissionLifecycleClient.ts:807-859 | the entries of the status pages are applied one by one, no other session touched |
| `SubmissionLifecycle.LifecycleClient.PollSubmissionLifecycleOnce` | dashboard/src/data/submissionLifecycleClient.ts:861-892 | a pass settles, collects, applies and counts; it returns 0 if and only if nothing is owed a poll afterwards, so over a quiet session |
| `SubmissionLifecycle.LifecycleClient.RemainingPollTargets` | dashboard/src/data/submissionLifecycleClient.ts:791-805 | counts the distinct requests queued, pending withdrawal or under an active watch |
| `SubmissionWithdrawal.OwnerTurnExact` | dashboard/src/data/submissionWithdrawal.ts:138-274 | what every reply does: only a loss, a refusal without a state, a queued status, and a status while the recovery is held leave the session alone, with the owner state that follows; every other reply is one observation of its word and detail, at the version used, made as the owner |
| `SubmissionWithdrawal.IssueExact` | dashboard/src/data/submissionWithdrawal.ts:32-74 | when a press of withdraw issues a withdrawal, and that it is the one still pending or the newest queued message at the current revision |
| `SubmissionWithdrawal.UserRestoreIsFinal` | dashboard/src/data/submissionWithdrawal.ts:352-377 | while its record is retained, text restored by the user is never saved by a later verdict |
| `SubmissionWithdrawal.DismissalRecorded` | dashboard/src/data/submissionWithdrawal.ts:379-403 | a dismissal is noted on the record and costs nothing else |
| `SubmissionWithdrawal.OwnerTurnShape` | dashboard/src/data/submissionWithdrawal.ts:138-300 | whatever reply resumes the withdrawal owner, it applies at most one observation of its own target, or nothing |
| `SubmissionWithdrawal.OwnerSavesIff` | dashboard/src/data/submissionWithdrawal.ts:138-240 | a turn of the owner saves its text if and only if the reply brings a withdrawn word that is applied at the version used and the text was not restored before |
| `SubmissionWithdrawal.OwnerRecoversIff` | dashboard/src/data/submissionWithdrawal.ts:190-240 | a turn of the owner puts a recovery into the slot if and only if it saves the text away from the captured revision, dismissed before or not |
| `SubmissionWithdrawal.LatestApplies` | dashboard/src/data/submissionWithdrawal.ts:120-136 | judged against the version read after the await, a withdrawn word is always applied |
| `SubmissionWithdrawal.DismissedRecoveryReturns` | dashboard/src/data/submissionWithdrawal.ts:120-136 | after a dismissal, a status lookup that reports the withdrawal puts the recovery back |
| `SubmissionWithdrawal.WithdrawalClient.WithdrawLastQueuedSubmission` | dashboard/src/data/submissionWithdrawal.ts:301-350 | single flight per session; the target and the draft revision captured when the withdrawal is issued |
| `SubmissionWithdrawal.WithdrawalClient.Settle` | dashboard/src/data/submissionWithdrawal.ts:405-417 | when the promise settles the session, and no other, may start another withdrawal |
| `SubmissionWithdrawal.WithdrawalClient.Resume` | dashboard/src/data/submissionWithdrawal.ts:138-300 | each awaited continuation of the withdrawal refines the owner turn, for every reply and loss |
| `SubmissionRuns.RevisionDeterminesDraft` | dashboard/src/data/sessionCockpitStore.ts:318-367 | over every interleaving the revision never falls, and equal revisions mean equal drafts |
| `SubmissionRuns.ClearedDraftWasSubmitted` | dashboard/src/data/submitClient.ts:748-764 | when the success of a draft submission clears the composer, the text erased is exactly the text submitted, whatever edits, submits and withdrawals came between |
| `SubmissionRuns.SettleStoredExact` | dashboard/src/data/submitClient.ts:711-776 | the settlement queues a queued composer message that is not there yet, last, and clears the draft if and only if the message is committed and the draft is at the submitted revision |
| `SubmissionRuns.AgreementOverRuns` | dashboard/src/data/submissionLifecycleClient.ts:594-670 | for a runner with absorbing definitive states, in every order of pages, withdrawal replies, losses and epoch mismatches: evidence rank never falls, possible-send evidence never returns to queued, not found or generation lost, and a definitive word stays and is the word of the runner |
| `WithdrawnText.RecoveryEndsIff` | dashboard/src/data/submissionWithdrawal.ts:352-403 | a step ends a recovery if and only if the user restores or dismisses it at the current revision; a restore puts its text into the draft |
| `WithdrawnText.RecoveryOverRuns` | dashboard/src/data/sessionCockpitStore.ts:520-540 | over every run, edits, launches, withdrawals, pages, replies and sweeps included, a recovery stays in the slot if and only if the user does not restore or dismiss it at the current revision |
| `WithdrawnText.DraftDisplacedIff` | dashboard/src/data/sessionCockpitStore.ts:318-367 | a step replaces the draft if and only if it is an edit, the restore of a held recovery, or, at an equal captured revision, a submit success or an automatic restore |
| `WithdrawnText.DraftOverRuns` | dashboard/src/data/sessionCockpitStore.ts:318-367 | over every run the draft keeps its revision and text if and only if no step displaces it |
| `WithdrawnText.HeldUnlessReleased` | dashboard/src/data/submissionLifecycleClient.ts:491-544 | held text is still held after a step if and only if the step does not release it or the draft reads the same afterwards; in the slot only a dismissal at the current revision releases it |
| `WithdrawnText.WithdrawnTextSurvives` | dashboard/src/data/submissionLifecycleClient.ts:491-544 | text saved by a withdrawn verdict stays in the recovery slot or the draft over every run until the recovery is dismissed or, once the text is in the draft, the draft is replaced |
| `WithdrawnText.NetworkReleasesNothing` | dashboard/src/data/submissionLifecycleClient.ts:491-544 | without an act of the user no page, reply, sweep or submit success ever releases saved text |
| `WithdrawnText.RecoveryBroughtIff` | dashboard/src/data/submissionWithdrawal.ts:138-240 | a step puts a recovery into the slot if and only if it is an owner reply or a page that saves text away from the captured revision; a page only for a pending withdrawal, never into an empty slot |
| `WithdrawnText.DismissedStaysGoneIff` | dashboard/src/data/submissionWithdrawal.ts:120-136 | until the next withdrawal is issued, a recovery that is gone stays gone if and only if no reply to the owner still in flight saves its text again |
| `WithdrawnWitnesses.DismissedRecoveryReappears` | dashboard/src/data/submissionWithdrawal.ts:120-136 | a run from a fresh cockpit in which a dismissed recovery returns |
| `WithdrawnWitnesses.SecondWithdrawalReplaces` | dashboard/src/data/submissionLifecycleClient.ts:491-518 | a run from a fresh cockpit in which a second withdrawal over an untouched restored draft loses the first text |
| `WithdrawnWitnesses.AuthorityLossForfeitsText` | dashboard/src/data/submissionWithdrawal.ts:242-274 | a run from a fresh cockpit in which an epoch mismatch drops a pending withdrawal and the later withdrawn word saves nothing |
| `WithdrawnText.RestoredAtMostOnce` | dashboard/src/data/submissionLifecycleClient.ts:491-518 | two automatic restores always belong to different withdrawals, with growing captured revisions |
| `WithdrawnText.RestoredTextProvenance` | dashboard/src/data/submissionWithdrawal.ts:301-350 | every saved text was the text of a queued entry when the withdrawal was issued, and a draft replaced by it was unchanged since then |
| `SubmissionRuns.StepWellFormed` | dashboard/src/data/submissionWithdrawal.ts:301-350 | every step keeps the slot, the owner in flight and the captured revisions consistent |
| `ReliableSubmit.BoundedSubmit` | dashboard/src/data/submitClient.ts:321-344 | one submit call raced against the deadline: exactly one call, with the message of the record, unless the deadline has passed when the attempt starts; the outcome is what the transport and the clock hold, and a failure is the deadline or what was thrown |
| `ReliableSubmit.BoundedStatus` | dashboard/src/data/submitClient.ts:321-344 | the same for a status lookup |
| `ReliableSubmit.BoundedReconcile` | dashboard/src/data/submitClient.ts:321-344 | the same for a reconciliation |
| `ReliableSubmit.ReceiptReflected` | dashboard/src/data/submitMachine.ts:215-263 | a receipt is stored with its phase, its word, its epoch and its detail, and what is definitive about the record is the definitive word of the receipt |
| `ReliableSubmit.ReconcileCatch` | dashboard/src/data/submitClient.ts:403-460 | when a failed attempt ends the window and how the record then shows it; a transient error changes no phase |
| `ReliableSubmit.ApplyLifecycleReconcile` | dashboard/src/data/submitClient.ts:373-401 | a status lookup is made unless the deadline has passed, and resolves the record if and only if it brings a word other than unknown |
| `ReliableSubmit.AskReconciliation` | dashboard/src/data/submitClient.ts:480-495 | a reconciliation of the same id is asked unless the deadline has passed; its answer is stored and is final if and only if it is not unresolved |
| `ReliableSubmit.ReconcileOnce` | dashboard/src/data/submitClient.ts:479-500 | one attempt asks; it is over exactly on a word or a cause, and goes on only after an unresolved answer or a transient error |
| `ReliableSubmit.PayDelay` | dashboard/src/data/submitClient.ts:466-478 | the backoff is paid in full and an attempt counted if and only if the deadline is still ahead after it; else the endgame |
| `ReliableSubmit.ReconcileTurn` | dashboard/src/data/submitClient.ts:462-502 | one turn of the loop: an attempt that asks if the deadline is ahead after the delay, else the endgame |
| `ReliableSubmit.ReconcileWindow` | dashboard/src/data/submitClient.ts:462-502 | the loop ends on the deadline, with attempts paced by the 1/2/5 s backoff, each of which asks for the same id; it ends only with the server word, an error of the transport or the deadline |
| `ReliableSubmit.SubmitCatch` | dashboard/src/data/submitClient.ts:504-565 | a retry exactly for the first certified pre-dispatch failure, and what every other failure makes of the record |
| `ReliableSubmit.SubmitOnce` | dashboard/src/data/submitClient.ts:567-610 | one round: one call with the immutable message unless the deadline has passed, a retry if and only if it is certified undispatched, and what its outcome makes of the record |
| `ReliableSubmit.SubmitLoop` | dashboard/src/data/submitClient.ts:567-603 | the loop posts exactly as often as the deadline and the certificate say, again exactly on the certificate, and the record shows what its last attempt came to |
| `ReliableSubmit.ResolveOutcome` | dashboard/src/data/submitClient.ts:604-610 | an ambiguous record is reconciled, any other is returned as it is |
| `ReliableSubmit.ExecuteReliableSubmit` | dashboard/src/data/submitClient.ts:567-610 | for every script of returns, throws and hangs and every clock: the exact number of posts, at most two, all with the same id, text and epoch; a settled verdict is returned at once with the phase, word and epoch of its receipt and without a lookup; an open one is reconciled to the server word, a thrown error or the deadline; at most 25 attempts in a 120 s window |
| `CatalogPoll.StepSound` | dashboard/src/data/catalogPoll.ts:62-157 | every step of every caller, settlement and reset keeps the five invariants of the shared attempt |
| `CatalogPoll.AtMostOneGet` | dashboard/src/data/catalogPoll.ts:62-77 | in every interleaving at most one physical GET is in flight |
| `CatalogPoll.BeatExactlyOnce` | dashboard/src/data/catalogPoll.ts:62-77 | a landed attempt has recorded a health beat exactly once, if its generation was current when it landed, and never otherwise, at every later time |
| `CatalogPoll.RevokedNeverHydrates` | dashboard/src/data/catalogPoll.ts:139-157 | a reader called before a reset never hydrates after it |
| `CatalogPoll.ExclusionsRespected` | dashboard/src/data/catalogPoll.ts:79-102 | no hydrate from an attempt holds an id excluded by any reader that joined it, and every row is one the attempt fetched in that generation |
| `CatalogPoll.FinishHydratesIff` | dashboard/src/data/catalogPoll.ts:139-157 | over every run, a reader called under the current generation and not reset before its finish adds one hydrate if and only if its attempt landed with a list that has rows or that it may show empty: the landed rows that no reader of that attempt excluded |
| `CatalogPoll.OnlyFinishHydrates` | dashboard/src/data/catalogPoll.ts:139-157 | no step but a finish hydrates |
| `CatalogPoll.CallJoinsIff` | dashboard/src/data/catalogPoll.ts:62-92 | a reader called under the current generation waits on the one attempt in flight with its exclusions registered; a stale one is over at once |
| `CatalogPoll.ResumeExact` | dashboard/src/data/catalogPoll.ts:92-102 | a waiting reader gets the result of its attempt, or joins the next if that one is of an older generation, or nothing if it was itself revoked |
| `CatalogPoll.KeepExact` | dashboard/src/data/catalogPoll.ts:152-156 | filtering keeps or drops each row by itself, in order |
| `CatalogPoll.CatalogPoller.CurrentCatalogTransportAttempt` | dashboard/src/data/catalogPoll.ts:62-77 | joins the attempt in flight or starts one of the current generation |
| `CatalogPoll.CatalogPoller.HydrateTerminalSessions` | dashboard/src/data/catalogPoll.ts:139-157 | the call step, a refused stale authority included |
| `CatalogPoll.CatalogPoller.OnFetched` | dashboard/src/data/catalogPoll.ts:62-77 | the landing step: the beat, if the generation is current |
| `CatalogPoll.CatalogPoller.OnFinally` | dashboard/src/data/catalogPoll.ts:62-77 | the release of the slot, if it still holds this attempt |
| `CatalogPoll.CatalogPoller.ResumeReader` | dashboard/src/data/catalogPoll.ts:79-102 | the retry loop: revoked, served, or joined to a newer attempt |
| `CatalogPoll.CatalogPoller.FinishReader` | dashboard/src/data/catalogPoll.ts:139-157 | the hydrate, or none for a revoked, failed or refused empty result |
| `CatalogPoll.CatalogPoller.ResetForDev` | dashboard/src/data/catalogPoll.ts:58-60 | a reset raises the generation and nothing else |
| `ServedAges.StableEqualsMeaning` | dashboard/src/data/servedAges.ts:16-53 | stableEquals holds exactly when the two trees are equal after the volatile age keys are deleted everywhere |
| `ServedAges.StableEqualsEquivalence` | dashboard/src/data/servedAges.ts:45-53 | stableEquals is reflexive, symmetric and transitive |
| `DashboardStore.MergeKeyed` | dashboard/src/data/store.ts:94-114 | the loop returns the existing map exactly under its guard, else the map of reused and new nodes |
| `DashboardStore.SizeTestIsUnchanged` | dashboard/src/data/store.ts:94-114 | with distinct keys the guard holds exactly when nothing was added, changed or removed |
| `DashboardStore.MergeRefinesRebuild` | dashboard/src/data/store.ts:94-114 | with distinct keys the merge is stable-equal to rebuilding the map |
| `DashboardStore.MergeRefinesRebuildIff` | dashboard/src/data/store.ts:94-114 | for any keys the merge is stable-equal to a rebuild if and only if it does not keep an existing map one of whose keys is no longer served |
| `DashboardStore.RepeatedKeyHidesRemoval` | dashboard/src/data/store.ts:94-114 | with a repeated key the merge can keep a node that was removed |
| `DashboardStore.MergeTwiceIff` | dashboard/src/data/store.ts:94-114 | merging the same list again finds nothing to do if and only if its keys are distinct or the first merge found nothing to do |
| `DashboardStore.DeltasReachSnapshot` | dashboard/src/data/store.ts:164-229 | one upsert per changed key and one removal per vanished key, in any order, reach the merged map |
| `DashboardStore.EventsReachSnapshot` | dashboard/src/data/store.ts:164-229 | the same for a stream of events over all channels: each collection ends as the snapshot would leave it |
| `DashboardStore.SkippedWriteIsNoOp` | dashboard/src/data/store.ts:231-252 | a snapshot found unchanged would not have changed the state |
| `DashboardStore.SnapshotIdempotentIff` | dashboard/src/data/store.ts:254-316 | applying the same snapshot twice performs no second write if and only if each keyed list has distinct keys or found nothing to do |
| `DashboardStore.SnapshotIdempotent` | dashboard/src/data/store.ts:254-316 | with distinct keys applying the same snapshot twice performs no second write |
| `DashboardStore.RepeatedKeyWritesForever` | dashboard/src/data/store.ts:254-316 | a repeated key that changes the store once makes every further application write |
| `DashboardStore.SnapshotShows` | dashboard/src/data/store.ts:254-316 | after a snapshot every whole value is shown as served, up to ages, and of the suppressions exactly those that the attention queue served still lists survive |
| `DashboardStore.StampAdvancesIff` | dashboard/src/data/store.ts:300-304 | the content stamp advances if and only if the content differs |
| `DashboardStore.ValueReaches` | dashboard/src/data/store.ts:197-229 | a whole-value delta reaches the store, up to ages, and touches nothing else but the suppressions its queue no longer lists; an unknown event touches nothing |
| `DashboardStore.Store.ApplySnapshotState` | dashboard/src/data/store.ts:254-316 | the state after a snapshot, for any keys, and one write or none |
| `SpawnTree.TreeIsForest` | dashboard/src/data/railModel.ts:414-436 | the rows are exactly the visible sessions whose ancestor chain ends at a root, each once, at the depth of that chain, and after their parent, which is the nearest row before them one level up; cyclic spawn edges included |
| `SpawnTree.TreeCompleteIffAcyclic` | dashboard/src/data/railModel.ts:414-436 | every visible session is shown if and only if no visible session is its own ancestor |
| `SpawnTree.AllAnchoredIffAcyclic` | dashboard/src/data/railModel.ts:414-436 | every node of a parent map reaches a root if and only if the map has no cycle |
| `SpawnTree.SiblingsInOrder` | dashboard/src/data/railModel.ts:429-435 | in the emitted rows the roots, and the children of each parent, stand in id order |
| `SpawnTree.Group` | dashboard/src/data/railModel.ts:414-428 | the grouping loop finds the children of every parent and the roots, in order |
| `SpawnTree.EmitInto` | dashboard/src/data/railModel.ts:431-434 | the recursive emission terminates and appends the rows of one subtree |
| `SpawnTree.BuildSpawnTree` | dashboard/src/data/railModel.ts:414-436 | the emission refines the tree the theorems are about |
| `RailModel.SessionPlaced` | dashboard/src/data/railModel.ts:226-325 | attaching one session puts it in exactly one slot, a completed one exactly when it has landed, and disturbs no other |
| `RailModel.SessionSeated` | dashboard/src/data/railModel.ts:234-325 | every seat stays taken by a session whose document and role entitle it, one cluster for each leaf; a session stays loose only if no seat exists for it or an earlier manager has it; a landed one is with its master if it has one |
| `RailModel.RolesAreRanked` | dashboard/src/data/railModel.ts:39-54 | the seats of a sprint and of a cluster are those of the roles they rank |
| `RailModel.PathDirExact` | dashboard/src/data/railModel.ts:161-167 | the master of a leaf is looked for in the folder of the leaf |
| `RailModel.InitializeRailAccumulators` | dashboard/src/data/railModel.ts:211-224 | the documents by key and the masters by path, later documents winning; every orchestration document has its sprint; nothing is seated |
| `RailModel.AttachAll` | dashboard/src/data/railModel.ts:361-369 | the loop places exactly the sessions that are not terminated |
| `RailSections.HomeMasters` | dashboard/src/data/railModel.ts:331-340 | each visible master is homed at the first sprint whose document names it, or at none, and a home always counts the master as named |
| `RailSections.MastersKeep` | dashboard/src/data/railModel.ts:327-359 | hiding empty masters and splitting the rest over the sprints and the top level loses and repeats no session |
| `RailSections.SprintSectionsKeep` | dashboard/src/data/railModel.ts:341-353 | hiding, sorting and materializing sprints loses and repeats no session |
| `RailSections.MasterShown` | dashboard/src/data/railModel.ts:327-359 | every master with a manager, a leaf or a completed session has its section |
| `RailSections.SectionsKeep` | dashboard/src/data/railModel.ts:182-199 | materializing masters keeps their live and completed sessions |
| `RailSections.ComparatorsOrder` | dashboard/src/data/railModel.ts:63-75 | the comparators of the rail are strict weak orders whenever the collation is |
| `RailSections.MaterializeRailSections` | dashboard/src/data/railModel.ts:327-359 | the sections hold what the accumulators hold, seated and in order; a master stands under a sprint only if a master of its key is named by the sprint document, and at the top level only if no sprint names it |
| `RailSections.BuildRailModel` | dashboard/src/data/railModel.ts:361-387 | every session that is not terminated is in exactly one slot, in a completed list exactly when landed; completedTotal counts the landed ones; seats are taken by those entitled to them; a session is loose only if no sprint seat is its own, the manager seat at its path is taken, and its leaf has no master document; a landed one is in the completed list of its master if there is one; all lists are in order |
| `RailSections.RailCycleOrder` | dashboard/src/data/railModel.ts:390-403 | the cycle order reads the live rows from top to bottom |
| `RailSections.CycleOfBuiltRail` | dashboard/src/data/railModel.ts:390-403 | the cycle order of a built rail is a permutation of the ids neither landed nor terminated |
| `Sorting.SortPermutes` | dashboard/src/data/railModel.ts:361-374 | sorting neither loses nor repeats |
| `StreamLiveness.FrameCycleIff` | dashboard/src/data/streamLiveness.ts:135-153 | told by the log of events alone: a tick cycles a silent channel exactly when it is watched, open and visible, did not sleep, was silent for the timeout, and showed life since the last such cycle |
| `StreamLiveness.SleepCycleIff` | dashboard/src/data/streamLiveness.ts:135-145 | a wake always earns its cycle, whatever the backstop did |
| `StreamLiveness.FrameCyclesSpaced` | dashboard/src/data/streamLiveness.ts:120-168 | with a clock that does not go back, two frame-timeout cycles are more than the timeout plus the settle window apart |
| `StreamLiveness.DefaultCyclesSpaced` | dashboard/src/data/streamLiveness.ts:47-58 | with the default tuning two such cycles are more than 100 s apart |
| `StreamLiveness.FrameCyclesBounded` | dashboard/src/data/streamLiveness.ts:120-168 | their number is at most one plus the number of frames outside the settle window of the last one; a channel without frames is cycled at most once |
| `StreamLiveness.SleepCyclesBudget` | dashboard/src/data/streamLiveness.ts:135-145 | every sleep cycle uses up a clock jump of its own |
| `StreamLiveness.Watchdog.Judge` | dashboard/src/data/streamLiveness.ts:135-153 | the closure variables after a tick, and when the channel is declared dead |
| `StreamLiveness.Watchdog.MarkAlive` | dashboard/src/data/streamLiveness.ts:159-168 | the closure variables after a frame |
| `PairChange.SentOnceOnProof` | dashboard/src/data/pairChange.ts:58-196 | over every event sequence the effort is sent at most once, and only on an accepted model result or a confirmed readback of an unknown one, before any denial |
| `PairChange.FirstVerdictDecides` | dashboard/src/data/pairChange.ts:58-196 | the first verdict on the model step sends the effort if and only if it is proof |
| `PairChange.FirstVerdictEnds` | dashboard/src/data/pairChange.ts:78-116 | the first verdict on the effort step completes the change if it is proof and leaves it partial if not |
| `PairChange.FirstDenialAborts` | dashboard/src/data/pairChange.ts:58-196 | the first verdict on the model step ends the change aborted if it is denial |
| `PairChange.StepNeverGoesBack` | dashboard/src/data/pairChange.ts:58-196 | the step never goes back and is the effort exactly after the effort was sent |
| `PairChange.OutcomeAbsorbing` | dashboard/src/data/pairChange.ts:58-196 | an ended change never changes again and every further event reports it done |
| `PairChange.OutcomeExplained` | dashboard/src/data/pairChange.ts:58-196 | completed implies proof of both steps in the log, partial proof of the model and denial of the effort, aborted that the effort was never sent |
| `PairChange.LedgerOverRuns` | dashboard/src/data/pairChange.ts:58-196 | the results kept with the outcome are the ones that justify it, both of them after a partial failure that is not a route error |
| `SyncRuntime.CopyResolves` | scripts/sync-runtime.py:77-127 | leaving out names directory by directory leaves out exactly the paths with an ignored part |
| `SyncRuntime.EndsWithIff` | scripts/sync-runtime.py:77-78 | a name has the suffix if and only if it is something followed by it |
| `SyncRuntime.FileDigests` | scripts/sync-runtime.py:97-108 | the digests of exactly the files that are not ignored, for every order of the walk |
| `SyncRuntime.DiffTarget` | scripts/sync-runtime.py:111-123 | missing, extra and changed are exactly the files, ignored ones apart, that only the source has, only the target has, and both have with other digests; in sync if and only if there are none |
| `SyncRuntime.CopyInSync` | scripts/sync-runtime.py:111-127 | a filtered copy is in sync with its source, under every digest |
| `TreeSwap.FileSystem.ReplaceTree` | scripts/sync-runtime.py:136-156 | every call, cut short at any point or within a copy or a removal, continues a run of the transition system, so all theorems about runs hold of it; the target by the place of the cut; a completed call leaves nothing beside the copy |
| `TreeSwap.AlwaysReady` | scripts/sync-runtime.py:147-156 | over all runs and crashes the renames never meet an occupied name and always have the whole copy |
| `TreeSwap.NeverPartial` | scripts/sync-runtime.py:136-156 | at every crash point, also of reruns, the target is away, the first tree, or the whole filtered source of some run |
| `TreeSwap.MissingIff` | scripts/sync-runtime.py:152-154 | the target is missing exactly when there never was one, or since a rename aside that no rename into place has followed |
| `TreeSwap.MissingOnlyAfterCrash` | scripts/sync-runtime.py:152-154 | a target that existed is missing only between the two renames or after a crash right there |
| `TreeSwap.CompletedRunIsClean` | scripts/sync-runtime.py:147-156 | a completed rerun leaves the whole copy, no staging and no retired tree, and is in sync |
| `TreeSwap.OldTreeIff` | scripts/sync-runtime.py:147-153 | while the target is away the old tree is whole beside it exactly until a later run starts to remove it |
| `TreeSwap.CrashCanLeaveNoTarget` | scripts/sync-runtime.py:136-156 | a crash between the renames leaves no target, contrary to the docstring |
| `TreeSwap.RerunCanLoseEveryTree` | scripts/sync-runtime.py:147-151 | a second crash, in the cleaning of the rerun, leaves neither the old tree nor a copy |

## Left out

- React components, panels, grammar, styles and browser drivers: user interface without deep state.
- `fetch`, abort signals, timers, EventSource and the parsing of wire formats: replaced by arbitrary outcomes and clock readings, so a malformed reply is a thrown error.
- Notices, announcements and the wording of details, beyond the detail strings that a record keeps.
- SubmissionRuns.AgreementOverRuns: is about requests that the submit and reconcile loop does not write during the run, because that loop writes back its own copy of the record; `ReliableSubmit` states what the loop itself guarantees.
- Paging of status requests and their grouping by epoch: the reports of a pass are any sequence of observations.
- The poll timer and its backoff: a pass is one step, and retirement is that a pass has no targets and none remain.
- `keepWaitingForSubmit`, `releaseSubmitDraft` and `retryRouteFailure`: thin callers of the reconcile window and of the execution, which are modelled.
- Age anchors: `stableEquals` is modelled in full, the stamping of served nodes is not.
- The event window of the dashboard store, and the user's own suppressing and releasing of attention items.
- Keys that JavaScript resolves through the object prototype, such as `__proto__`: records are modelled as maps.
- Cyclic object graphs, which JSON does not have, and non-finite numbers.
- Placement of rail seats across repositories: masters are keyed by path alone, as in the source; the seating theorem is about document keys and paths.
- The collation of strings is any strict weak order, and which seats count as working is any predicate.
- Attention roll-ups, focus defaults and tooltips of the rail: single filters and comparisons.
- `setClient.ts`, which drives the pair machine: it matches readback verdicts by kind only.
- Hashing, permissions, symbolic links and the long-path form of Windows paths in the sync script; a source that changes during one copy; `scripts/sync-skills.py`, which repeats the swap.
- Development resets other than the generation counter of the catalog poller.
- The Python server: it appears only as the runner of the submission runs.
