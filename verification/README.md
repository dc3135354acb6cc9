# Verification of the Google Photos picker

A model of the library's four stateful parts, and proofs about them over every run:

- **The browser flow** (`client/src/flow.ts`). `GooglePhotosFlow` is an asynchronous state machine in which any number of
  overlapping `connect()` and `start()` calls share one published state, one window, one set of pending delays and one
  run counter. `FlowModel` describes it as a transition system in which "a promise settles" and "its continuation runs" are
  separate steps; each run is a coroutine with a program counter. `GooglePhotosFlow.dfy` is the class itself, with fields
  updated in place, each method proved to do exactly what the transition system does. The theorems are in
  `FlowInvariants`, `FlowAgreement`, `FlowHistory`, `FlowStory` and `FlowRaces`; `FlowLaws` says, with messages, times and
  limits written out, what a user sees of each answer; the retry schedule is in `Backoff`, the session loop in
  `SessionPolling`.
- **The import pipeline** (`worker.go`, `postgres/imports.go`, `picker.go`). `ImportStore` is the table with its
  statements, `Workers` the worker loop, `Picker` the paged listing and the download caps. `Pipeline` interleaves any
  number of workers and pollers statement by statement; a job's *ledger* is the history of what was done for it, with every call of
  the sink and its answer, and the invariant says that every row is the sum of its ledger. `WorkerScripts` shows that the
  worker loop is one of the behaviours of the pipeline, `JobOrigins` what a job keeps of the request that created it and in
  which order jobs are taken, `JobEnds` which jobs still come to an end.
- **The consent states** (`oauth.go`). `OAuthState` has the store and the meaning of its histories without sweeps.
- **The token store** (`postgres/tokens.go`, `internal/cryptobox/cryptobox.go`, `client.go`). `Cryptobox` frames an abstract
  AEAD, `TokenStore` refines the encrypted table to a plain map, `Clients` has the calls on both stores, and
  `ConsentRaces` interleaves any number of consents, refreshes and disconnects.

`EndToEnd` puts the browser flow of one user and the import pipeline together: requests may be served several times,
answers may be late or lost. `Delivered` follows one row to what the user sees; `LostResults` says exactly when a result
is lost.

## What is assumed

- Subscribers do not call back into the flow. The injected `fetchJson` returns a promise, which may reject with anything
  but the flow's own cancellation marker. A cleared timer never fires.
- A store call that reports an error has had no effect. A job's id is one that was never used before (UUIDs). Where a
  `locked` set is given, those rows are locked by claims that have not committed.
- The AEAD opens what it sealed under the same nonce, and nonces are not empty. A `state` value is random: `ConsentRaces`
  does not issue one twice; `OAuthState` does not need that.
- The registered image decoders are those for JPEG and PNG: dimensions of 16 bits, or at most as many pixels as can be
  counted in 64 bits at eight bytes each. An empty file has no header.
- Clocks do not go back where a lemma says `Monotone` or takes a later time; elsewhere they are arbitrary.
- Times are in milliseconds; the number `baseMs * 2 ** n` is the doubling of `baseMs`, n times.

The window a run opens is identified by the run's number; whether the user has closed it is an input of the continuation
that looks. Rejections that travel through several `async` frames before they reach the catch block are one step, the
success of `pollFetch`, of `pollSession` and of `pollJob` are separate ones.

## Properties that fail, and exactly when

- Phase and live run agree in every state between two tasks of the event loop (`PhaseMeansRun`). Between two continuations
  they agree after every call, whatever follows, if and only if the call does not cut in while the current run's awaited
  promise has settled and its continuation is about to write without checking the run counter
  (`AgreementSurvivesCallsIff`).
- A superseded run can close the window of the run that superseded it. Its next continuation does so if and only if a
  window is open and the run stands at one of the points `ClosesWhenStale` names (`StaleContinueClosesWindowIff`); a task
  that wakes a superseded run always does (`WokenStaleRunClosesWindow`, with a run of events in
  `StaleRunClosesNewerWindow`).
- A final record is not handed out only once: it is found if and only if no DELETE for it has taken effect
  (`FinalReadIff`), so two concurrent `Get` calls can both read it (`FinalRecordReadTwice`).
- A job that has succeeded need not come to `done`: a final answer that is lost after its DELETE takes the result with it,
  at the fifth failure in a row the run gives up, and once superseded it no longer gets there. In every reachable state `done` is
  reachable with the job if and only if its row is still there and the current run is on its way to ask for it, or an
  answer with it is under way to that run, or a run has been told and is not stopped (`DoneReachableIff`,
  `FifthFailureLoses`, `SupersededLoses`, with a run of events in `ResultCanBeLost`).
- A claimed job need not end: one that no worker drives any more stays running for good, and a claimed job can still end if
  and only if a worker is driving it (`JobCanEndIff`, `AbandonedStaysRunning`). That happens when a worker dies, and when
  the statement fails that should end the job (`LastStatementFails`, with a run of events in `JobsAreAbandoned`).
- A failing store call makes a complete job's counts fall short of its items by exactly the losses
  (`CompleteRecordAddsUp`), and its saved ids short of what the sink keeps by exactly what was mislaid
  (`SavedIdsAreKeptIff`, with a run of events for both in `LossesDoHappen`).
- A refresh that lands stores its access token beside the refresh token saved last, which need not be the one it was made
  with (`UpdateLandsOn` says exactly when it is, `GrantsDoMix` is a run of events in which it is not).
- A disconnected user need not stay disconnected: with no state of theirs accepted any more, they can become connected
  again if and only if a consent of theirs was under way at the disconnect that still waits for Google or has a refresh
  token to save (`ReconnectsIff`, with a run of events in `DisconnectOvertaken`).
- On a clock that goes back, a consume sees the sweeper (`SweepSeenIff`).
- Under the byte cap 2^63 - 1, and under no other, the limit of a download wraps around and files arrive empty
  (`NothingIsCutOffIff`).

## Model

| member | source | states |
|---|---|---|
| GooglePhotosFlowClass.GooglePhotosFlow.constructor | client/src/flow.ts:53-64 | a new flow is idle, knows nothing about the connection, has no run, no window, no delay and an empty history, and satisfies the invariant |
| GooglePhotosFlowClass.GooglePhotosFlow.ClearTimers | client/src/flow.ts:92-98 | visiting the waiters in any order, every pending delay is disarmed and rejected with the cancellation marker, in exactly the run that waits for it |
| GooglePhotosFlowClass.GooglePhotosFlow.HandleError | client/src/flow.ts:359-369 | superseded or cancelled, nothing changes at all; else the phase is error with that message and that expiry flag, one state is published, and nothing else changes |
| GooglePhotosFlowClass.GooglePhotosFlow.Catch | client/src/flow.ts:154-158 | the window is closed and the run is over, rejected with that error, in every case; the state changes only for the current run and never for the cancellation marker, and then to that error |
| GooglePhotosFlowClass.GooglePhotosFlow.Cancel | client/src/flow.ts:83-90 | afterwards no run is current, no delay is pending, no timer is armed and no window is open; a terminal state is left as it is, any other becomes idle without progress |
| GooglePhotosFlowClass.GooglePhotosFlow.Connect | client/src/flow.ts:138-147 | the synchronous part of `connect()`: with a window it is connecting without error, holds that window and has asked for the consent URL; a blocked window ends it in `error` at once with the message for that; pending delays and OAuth waits of other runs are left alone |
| GooglePhotosFlowClass.GooglePhotosFlow.Start | client/src/flow.ts:167-187 | the synchronous part of `start()`: known to be disconnected it ends in `error` whether or not there is a window; else with a window it is creating, shows nothing of an earlier run, holds that window and has asked for a session, and without one it ends in `error` |
| GooglePhotosFlowClass.GooglePhotosFlow.RefreshStatusSettles | client/src/flow.ts:113-120 | an answer is stored as it is and clears the error; a failed request says disconnected and leaves the error; nothing else is written, and by no run |
| GooglePhotosFlowClass.GooglePhotosFlow.DisconnectSettles | client/src/flow.ts:123-131 | success says disconnected and clears the error; failure publishes the message and leaves `connected` |
| GooglePhotosFlowClass.GooglePhotosFlow.FetchSettles | client/src/flow.ts:145-147 | the run that waits for this request is queued with exactly the answer, or with the error and expiry flag of the failure; a poll keeps its count of failures; no other run and nothing that is published moves |
| GooglePhotosFlowClass.GooglePhotosFlow.OnTimer | client/src/flow.ts:239-242 | a fired delay leaves `waiters`; its run goes on with the same loop and the same count of failures if it is current, else it is cancelled; a disarmed one does nothing |
| GooglePhotosFlowClass.GooglePhotosFlow.OnMessage | client/src/flow.ts:331-343 | a superseded wait is refused by any message; a message of another origin or type changes nothing; else `success` resolves and anything else refuses with its message, or a default; a settled wait holds neither listener nor watchdog nor timeout |
| GooglePhotosFlowClass.GooglePhotosFlow.OnWatchdog | client/src/flow.ts:344-349 | the watchdog refuses a wait whose run is superseded, and changes nothing otherwise |
| GooglePhotosFlowClass.GooglePhotosFlow.OnOAuthTimeout | client/src/flow.ts:350-353 | the timeout refuses an abandoned wait, with the message for that |
| GooglePhotosFlowClass.GooglePhotosFlow.ResumePollFailed | client/src/flow.ts:256-261 | publishes nothing and moves only its own run: superseded it throws the cancellation marker; current it waits 1, 2, 4 or 8 intervals, at most 15 seconds, after its first to fourth failure, and throws the error of the fetch at the fifth |
| GooglePhotosFlowClass.GooglePhotosFlow.ResumeStatus | client/src/flow.ts:267-280 | publishes nothing and moves only its own run: it leaves the loop exactly if current and told ready, fails exactly if current and told expired, with the expiry error, waits the configured interval or 2 seconds exactly if current and told pending, and is cancelled exactly if superseded |
| GooglePhotosFlowClass.GooglePhotosFlow.ResumeJob | client/src/flow.ts:286-307 | superseded it publishes nothing and is cancelled; current it publishes the counts it was told and nothing else, leaves the loop with the saved ids and counts it was told exactly if told complete, fails exactly if told failed, with the job's message or a default, and waits the configured interval or 1.5 seconds exactly otherwise |
| GooglePhotosFlowClass.GooglePhotosFlow.ResumeConnect | client/src/flow.ts:148-158 | it goes on, to wait for the message with listener, watchdog and timeout, exactly if it is current, was given a URL and its window is open; else it is over with the window closed; superseded it writes nothing, unless its message had arrived: then it writes idle and connected all the same |
| GooglePhotosFlowClass.GooglePhotosFlow.ResumePicking | client/src/flow.ts:188-193 | it goes on, to poll the session it was given, exactly if it is current and its window is open; else it rejects with the window closed; superseded it writes nothing |
| GooglePhotosFlowClass.GooglePhotosFlow.ResumeImporting | client/src/flow.ts:193-211 | after the session loop it closes the window and asks for the import of that session, and after the job loop it is done with that result, in both cases superseded or not |
| GooglePhotosFlowClass.GooglePhotosFlow.ResumeStarted | client/src/flow.ts:208-217 | after the import request it goes on, to poll the job it was given, exactly if it was given one and is current; else it rejects with the window closed; superseded it writes nothing |
| GooglePhotosFlowClass.GooglePhotosFlow.Continue | client/src/flow.ts:138-218 | every continuation of every run is a step of the transition system and keeps the invariant |
| FlowInvariants.RunInv | client/src/flow.ts:82-98 | over any events: run numbers come from the counter, `waiters` is exactly the set of unsettled delays, each armed for the time that delay calls for and owned by the one run that waits for it; OAuth waits hold all three resources and nobody else does; the retry counter stays in its budget; only superseded runs are being cancelled; `done` has a result |
| FlowAgreement.PhaseMeansRun | client/src/flow.ts:82-90 | from a new flow, over any interleaving of calls, replies, timers and messages task by task: between tasks the phase is active exactly if the run with the current number is live, and that run is suspended at an await of that phase; at all times the window kept is the current run's and only in connecting, creating or picking, `expired` only in error, in `done` the progress equals the counts of the result, and a `start()` shows nothing of an earlier one |
| FlowAgreement.TasksArePolite | client/src/flow.ts:229-231 | if every task of the event loop runs to its end before the next starts, no call ever cuts in at an unguarded write, so everything about polite runs holds |
| FlowAgreement.DrainProgress | client/src/flow.ts:138-218 | a task ends: every continuation brings its run strictly closer to its next suspension or its end |
| FlowAgreement.NobodyStuck | client/src/flow.ts:82-90 | every live run can go on by some event, so an active phase is always driven |
| FlowAgreement.StaleWakeEnds | client/src/flow.ts:229-231 | the first fetch, timer or message that wakes a superseded run ends it within that task, with no field of the state changed |
| FlowAgreement.CancelIdles | client/src/flow.ts:83-90 | after `cancel()` there is no current run, no delay, no armed timer and no window, and the phase is terminal as before or idle |
| FlowAgreement.QuietAfterCancel | client/src/flow.ts:82-98 | until the next call, whatever arrives, no field of the state changes but by `refreshStatus()` and `disconnect()`, which leave the phase, the progress and the result alone; the phase stays inactive |
| FlowHistory.SupersededRunIsAlmostSilent | client/src/flow.ts:229-231 | with continuations as separate steps, a run superseded at any point makes at most one further state write and one further request, and never writes an error, over all continuations |
| FlowHistory.WaitingStaleRunIsSilent | client/src/flow.ts:229-263 | a superseded run that is waiting, as every live run is between tasks, never writes and never asks for anything again, over all continuations |
| FlowHistory.CutOffRunWritesIff | client/src/flow.ts:151-153 | a run cut off by a call writes again in some future if and only if it stood at one of the three unguarded writes |
| FlowHistory.CuttingInBreaksAgreement | client/src/flow.ts:210-212 | a `connect()` that cuts in there leaves a phase that contradicts the live run |
| FlowHistory.AgreementSurvivesCallsIff | client/src/flow.ts:193-208 | phase and live run agree after any call and whatever follows politely if and only if the current run does not stand at an unguarded write |
| FlowHistory.EverythingSettlesOnce | client/src/flow.ts:319-357 | in every reachable state a call has settled at most once, and not while live; a registered delay is pending or has settled exactly once; an OAuth wait has settled at most once, and not while it listens |
| FlowHistory.OAuthResolvesIff | client/src/flow.ts:331-343 | an OAuth wait resolves on exactly one event: a success message of the right type and an accepted origin while its run is current; however it settles, it holds nothing any more |
| FlowStory.ResolvedStartWasEarned | client/src/flow.ts:167-218 | over any events, a `start()` that resolves had, in this order, its session, a ready poll of it, its job from that session's import, and a complete poll of that job; its value is what that poll said, and it is the `result` of the `done` state written just before |
| FlowStory.DoneEnteredOnlyByJobDone | client/src/flow.ts:210-212 | `done` is entered by no event but the end of a run whose job loop returned, with that result |
| FlowStory.DoneAtMostOncePerRun | client/src/flow.ts:210-212 | over all events from a new flow each run writes `done` at most once |
| FlowStory.GivesUpIffFiveFailures | client/src/flow.ts:251-263 | in every reachable state the current run whose poll has failed leaves its loop, with that error, if and only if at least five of its requests in a row have failed according to the history, however many failed and recovered before; with fewer it waits, and tries again with exactly that count |
| FlowLaws.StatusDecidesStart | client/src/flow.ts:113-187 | after an answer that the user is connected the next `start()` with a window asks for a session; after any other answer, or a failed request, it rejects |
| FlowLaws.DisconnectDecidesStart | client/src/flow.ts:123-187 | after a `disconnect()` that succeeded the next `start()` rejects; one that failed changes the published error alone |
| FlowLaws.StartNeedsWindow | client/src/flow.ts:167-187 | a user not known to be disconnected: `start()` asks for a session if and only if it gets its window, and else ends with the error for that |
| FlowLaws.ConnectNeedsWindow | client/src/flow.ts:138-147 | `connect()` asks for the consent URL with its window, and without one ends with the error for that |
| FlowLaws.ConsentConnects | client/src/flow.ts:148-153 | an accepted success message leaves the user idle and connected, the window closed and the call resolved |
| FlowLaws.FailedRequestIsPublished | client/src/flow.ts:359-369 | a request that is made once fails: the call rejects with the message and expiry flag of that failure, which are published, and the window is closed |
| FlowLaws.FifthFailureIsPublished | client/src/flow.ts:251-263 | so does the fifth failure in a row of a poll |
| FlowLaws.ExpiryIsPublished | client/src/flow.ts:273-279 | a session that is told expired ends the call with the expiry message and the expiry flag |
| FlowLaws.FailedJobIsPublished | client/src/flow.ts:284-306 | a job that is told failed ends the call with the job's message, or a default where it is missing or empty; its counts are published |
| FlowLaws.CompleteJobIsPublished | client/src/flow.ts:284-303 | a job that is told complete resolves the call with its saved ids and counts, which are published as result and as progress |
| FlowLaws.RefusalIsPublished | client/src/flow.ts:331-343 | a message that is no success ends `connect()` with its text, or a default where it is missing or empty |
| FlowLaws.TimeoutIsPublished | client/src/flow.ts:350-353 | an abandoned consent ends `connect()` with the timeout message |
| FlowLaws.ClosedWindowIsPublished | client/src/flow.ts:148-189 | a window closed before it could be pointed anywhere ends the call with the message for that window |
| FlowLaws.DelaysAreTimed | client/src/flow.ts:251-309 | in every state with the invariant each pending delay is armed for the interval of its own loop (configured, or 2 and 1.5 seconds) between polls, and for 1, 2, 4 or 8 times that, at most 15 seconds, after the first to fourth failure |
| FlowRaces.StaleContinueClosesWindowIff | client/src/flow.ts:152-156 | the continuation of a superseded run closes whatever window is open exactly if the run stands where the catch block, or the unchecked code after the OAuth wait or the session loop, comes next; else it leaves the window alone |
| FlowRaces.WokenStaleRunClosesWindow | client/src/flow.ts:213-215 | whatever wakes a superseded run, no window is open any more when that task is over |
| FlowRaces.StaleRunClosesNewerWindow | client/src/flow.ts:213-215 | a run of whole tasks in which a superseded `connect()` closes the picker window of the `start()` that superseded it |
| FlowRaces.StaleConnectWritesIdle | client/src/flow.ts:151-153 | a reachable state in which run 2 is creating its session and the phase says idle |
| Backoff.WaitsNondecreasing | client/src/flow.ts:257-261 | the waits of one call never shrink and never pass 15 seconds |
| Backoff.TotalWaitBounded | client/src/flow.ts:257-261 | one call waits at most 15 intervals and at most a minute in total |
| Backoff.PollFetch | client/src/flow.ts:251-263 | at most five attempts; settles with the first success or the fifth failure; the waits in between are 1, 2, 4 and 8 intervals, each at most 15 seconds; fails exactly if all five fail |
| SessionPolling.PhaseNeverGoesBack | client.go:293-303 | for a session whose deadline is fixed and whose selection is not taken back: ready is stable, expired never becomes pending, and expired becomes ready only by a selection |
| SessionPolling.NoDeadlineNeverExpires | client.go:290-301 | a session can never be reported expired exactly if it is selected or has no deadline that parses |
| SessionPolling.CeilDivIsLeast | client/src/flow.ts:265-282 | the bound on the rounds is the least number of steps that covers the time left |
| SessionPolling.PollSession | client/src/flow.ts:265-282 | the loop ends with the first round that is not pending, for the reason of that round, and after at most ceil((expire - now) / d) + 1 rounds |
| ImportStore.PgImportStore.CreateJob | postgres/imports.go:28-46 | adds one pending row with the given user, session, context (empty if absent) and time of creation, zero counts, no saved ids and no error; no other row changes, and a failing insert changes nothing |
| ImportStore.PgImportStore.ClaimNextPending | postgres/imports.go:50-79 | claims an oldest pending row nobody has locked and marks it running, changing no other; none means there is none |
| ImportStore.PgImportStore.SetTotal | postgres/imports.go:82-88 | sets the total of the row, if there is one, whatever its status |
| ImportStore.PgImportStore.RecordItemSuccess | postgres/imports.go:91-100 | one more completed item and its id at the end of the saved ids, whatever the status |
| ImportStore.PgImportStore.RecordItemFailure | postgres/imports.go:103-110 | one more failed item, whatever the status |
| ImportStore.PgImportStore.MarkComplete | postgres/imports.go:113-119 | the row, if there is one, becomes complete, whatever its status |
| ImportStore.PgImportStore.MarkFailed | postgres/imports.go:122-128 | the row, if there is one, becomes failed with the message, whatever its status |
| ImportStore.PgImportStore.Get | postgres/imports.go:132-166 | returns the asking user's row; a terminal one is deleted, and a failing delete goes unnoticed |
| Ledgers.OutcomesAddUp | worker.go:120-125 | every processed item is counted exactly once, as a saved id, a failure or a loss |
| Ledgers.SavedIdsAreSinkAnswers | worker.go:135-146 | every saved id is the id the sink returned for its item, the ids stand in item order, and no saved item is missing |
| Ledgers.SavedIdsAreKeptIff | postgres/imports.go:91-100 | the saved ids are, in order, exactly the ids the sink has returned for the items done, if and only if no recorded success failed after the sink kept the item; once a job has succeeded these are all the ids the sink ever returned for it |
| Ledgers.CompleteRecordAddsUp | worker.go:106-133 | a complete record has completed = number of saved ids and completed + failed = items - losses; it equals the total exactly if nothing was lost (or, with an unrecorded total, if everything was) |
| Ledgers.FailedRecordIsEmpty | worker.go:110-114 | a job whose listing failed has saved and counted nothing, its total is 0, the sink was never called, and it carries the listing's error |
| PipelineInvariants.UpdatesHitRunningRows | worker.go:106-146 | every statement of a worker between claim and end hits an existing running row of its own job, although no UPDATE checks the status |
| PipelineInvariants.DeleteHitsFinalRecord | postgres/imports.go:162-164 | a DELETE, however late after its SELECT, can only hit the final record of the asking user's job, unchanged since it was read |
| PipelineHistory.RunLater | worker.go:84-133 | over any interleaving of workers, deaths, claims and pollers: every row is the sum of its job's history, a row that is gone had ended, no two workers hold one job, and pollers carry only records of the asking user; and histories only grow |
| PipelineHistory.JobLife | postgres/imports.go:50-128 | whatever happens later: pending, running, complete or failed, absent, never back; a terminal record never changes; counts never shrink; the total is set at most once; only ended rows disappear and none comes back |
| PipelineHistory.DeletedIsGoneForGood | postgres/imports.go:132-166 | once a DELETE has taken effect every later SELECT of the job finds nothing |
| PipelineHistory.ClaimedAndSunkAtMostOnce | worker.go:84-125 | over a whole run each job is claimed at most once, no two workers are responsible for one job, and the sink is called at most once per listed item |
| PipelineHistory.NoTwoClaimersHoldARow | postgres/imports.go:50-61 | with lock and commit as separate steps, no two claims hold the same row |
| PipelineHistory.CountsAddUp | worker.go:106-146 | with no failing store call, at every moment of every run: completed = number of saved ids, completed + failed <= total, and the saved ids are in order exactly what the sink returned for the items done; a complete job has completed + failed = total = length of all pages together and has saved all the sink ever returned |
| PipelineHistory.PendingShrinks | worker.go:84-101 | the set of pending jobs grows by nothing but a new job, whoever works, and every committed claim makes it strictly smaller |
| PipelineHistory.FinalReadIff | postgres/imports.go:132-166 | a SELECT of the owner of an ended job finds its final record if and only if no DELETE for that job has taken effect, over any events in between |
| PipelineHistory.FinalRecordReadTwice | postgres/imports.go:139-163 | a run from the empty table in which two pollers both read the final record and both answer with it |
| JobOrigins.RecordsCarryCreation | postgres/imports.go:28-46 | over every run a job is known exactly if an insert of it has succeeded, and its record carries the user, the session, the context and the time of that insert, whatever has happened to it since |
| JobOrigins.WorkersCarryCreation | postgres/imports.go:50-79 | over every run the job a worker drives, and so what the sink is handed, carries the user, the session and the context of the insert of its id |
| JobOrigins.OldestIsTaken | postgres/imports.go:50-61 | in every reachable state the job a worker takes was created no later than any other job that is not claimed, unless a claim of that other one is being committed |
| JobEnds.JobCanEndIff | worker.go:106-133 | in every state with the invariant a claimed job that has not ended can still end, by some continuation of events, if and only if a worker is driving it |
| JobEnds.AbandonedStaysRunning | worker.go:106-133 | a claimed job that no worker drives keeps its running row, unchanged and undeleted, over all events |
| JobEnds.LastStatementFails | worker.go:110-129 | a job is abandoned when its worker dies, and when the one statement fails that should make it complete or failed |
| JobEnds.JobsAreAbandoned | worker.go:84-101 | a run from the empty table that ends with an abandoned job |
| Picker.ListSessionMediaItems | picker.go:101-119 | the concatenation of all pages in order, empty pages included, or the first error; each request carries the token of the page before |
| Picker.DownloadPassesIff | picker.go:136-167 | the file reaches the sink whole exactly if it is within the byte cap and its picture, where a decoder reads a header and the cap is on, within the pixel cap; each error comes exactly for its cap; under the largest 64-bit byte cap every file arrives empty |
| Picker.NothingIsCutOffIff | picker.go:144-150 | files pass whole or not at all, for all inputs, if and only if the byte cap is not the largest 64-bit number |
| Picker.NoHeaderWraps | picker.go:152-158 | for every header the JPEG or the PNG decoder accepts the size of the picture is computed without wrapping around |
| Workers.FinalLedgerOk | worker.go:106-133 | the history the loop leaves has what every history in the concurrent pipeline has: nothing before the listing, each item once, and of the sink only what it answered |
| Workers.GrownFromClaim | worker.go:106-133 | the row the loop leaves is the row that history amounts to |
| WorkerScripts.LoopIsARun | worker.go:106-146 | the loop refines the concurrent pipeline: from any state in which a worker has just claimed a job, the statements the loop issues are a run of the pipeline that leaves exactly the loop's history and its row, and every other job, worker and poller as they were |
| WorkerScripts.LossesDoHappen | worker.go:120-129 | a run from the empty table that ends with a complete job of one item that is neither saved nor counted as failed, although the sink keeps it |
| Workers.Worker.ImportOne | worker.go:135-146 | records the sink's id exactly if download, sink and record all succeed, and fails otherwise with the table unchanged |
| Workers.Worker.ProcessJob | worker.go:106-133 | in any environment the table changes in the job's row alone, by exactly the job's final history; the error is the listing's |
| Workers.Worker.DrainOnce | worker.go:84-101 | terminates; processes each claimed job once, oldest first, none left pending that is older; changes no other row; and with no claim error or cancellation leaves nothing pending |
| EndToEnd.RunInv | client/src/flow.ts:284-309 | over any events of browser and pipeline: both invariants hold, every terminal answer a run was given is the job's final record, every job a run was told was created by its own import for that user and session, no job is told twice, and what a run has seen is behind the record and behind every answer still under way to it |
| EndToEnd.EachImportHasItsOwnJob | postgres/imports.go:28-46 | over all events a run is told only of jobs its own import request has created, for its user and that session, and no job is ever told twice |
| EndToEnd.SuccessivePolls | postgres/imports.go:132-166 | successive answers a run receives are about one job; their status does not go back, counts and saved ids grow, the total is set at most once from 0, and nothing changes after a terminal one |
| EndToEnd.PollsWithinTotal | worker.go:106-133 | with no failing store call, every record that reaches a run has completed + failed <= total, with equality once it is complete, and as many saved ids as completed items |
| EndToEnd.ResultIsFinalRecord | client/src/flow.ts:284-309 | a resolved `start()` carries exactly the final record of the job that its own import of its own session created for its own user, that no other import was ever told, and that its own poll was told is complete: the ids of the saved items in item order, and counts that add up to the listing minus the losses |
| EndToEnd.ResultAddsUp | worker.go:106-146 | with no failing store call, moreover: completed + failed = total = length of the whole listing, and the saved ids are all the ids the sink returned for that job, in order |
| Delivered.CompleteRowIsPublished | client/src/flow.ts:284-303 | when the answer with a complete row reaches the current run, its saved ids and counts, field by field, become the result of the call and of the published state |
| Delivered.FailedRowIsPublished | client/src/flow.ts:284-306 | with a failed row its error, or a default where it has none, becomes the error of the call and of the published state |
| Delivered.UnfinishedRowIsPublished | client/src/flow.ts:284-309 | with any other row its counts become the published progress, nothing else changes, and the run waits for its next poll |
| Delivered.AnswerSaysRow | postgres/imports.go:132-166 | what a run is told about its job is, status, counts, ids and error, the row that was read for the request it is waiting for |
| Delivered.ImportCreatesJob | client/src/flow.ts:196-208 | an import request that is served creates a job for the flow's user and the run's session, with the caller's context and the time of creation |
| LostResults.DoneReachableIff | client/src/flow.ts:284-309 | in every reachable state, for every job that has succeeded: some continuation of events takes a run to the end of its job loop with it if and only if it is not lost for good, that is, as long as the row is there and the current run is on its way to ask for it (from the import request on, anywhere in its loop short of the fifth failure), or an answer with it is under way to that run, or a run has been told and is not stopped |
| LostResults.LostReadNeverDone | client/src/flow.ts:284-309 | once the result is lost it stays lost, and no run ever reaches the end of its job loop with that job, whatever happens |
| LostResults.FifthFailureLoses | client/src/flow.ts:256-261 | at the fifth failure in a row the result is lost, although the row is still there |
| LostResults.SupersededLoses | client/src/flow.ts:83-90 | any call that supersedes the current run loses the result, unless the run is past its loop |
| LostResults.LosingTheOnlyAnswer | postgres/imports.go:162-164 | if the request of the only answer that carries the deleted row fails, the result is lost for good |
| LostResults.ResultCanBeLost | postgres/imports.go:162-164 | a run from a new flow and an empty table in which that happens: before the poll is served the result can reach `done`, afterwards it cannot, although the job has succeeded and the run still goes on |
| OAuthState.StateStore.Create | oauth.go:58-68 | the state is stored for the user until ten minutes from now; without randomness nothing changes |
| OAuthState.StateStore.Consume | oauth.go:70-82 | the state is gone afterwards in every case, and the user comes out only up to its expiry |
| OAuthState.StateStore.Sweep | oauth.go:97-106 | deleting while ranging over the keys in any order leaves exactly the entries that have not expired |
| OAuthState.EntriesAre | oauth.go:58-106 | after any history, on any clock, the map holds exactly the issues that were not used up and that no sweep has caught |
| OAuthState.ConsumeSucceedsIff | oauth.go:70-82 | on any clock, a consume succeeds for a user exactly if the last issue of the state was theirs, was not used up, has not expired and was not swept too early |
| OAuthState.ConsumeMeans | oauth.go:70-82 | on a monotone clock the result is that of a history without sweeps and without a map |
| OAuthState.SweepingIsUnobservable | oauth.go:97-106 | for every history on a monotone clock all consumes return the same with all sweeps removed |
| OAuthState.SweepSeenIff | oauth.go:97-106 | on any clock a consume sees the sweeper exactly if it comes before the expiry and a sweep saw a clock beyond it |
| OAuthState.SweepSeenWhenClockGoesBack | oauth.go:97-106 | a history in which that happens |
| OAuthState.WinsNeedIssues | oauth.go:70-82 | a state is consumed successfully at most as often as it was issued |
| OAuthState.SuccessNamesTheIssue | client.go:152-171 | a successful consume yields the user of an issue of that state no later than its expiry, and of a state issued once it is the only success |
| Cryptobox.OpenAfterSeal | internal/cryptobox/cryptobox.go:49-75 | sealing fails only for want of randomness; what it seals opens to the same text; empty is sealed as empty and nothing else is |
| Cryptobox.SealIsInjective | internal/cryptobox/cryptobox.go:49-58 | equal ciphertexts come from equal texts, under equal nonces |
| Cryptobox.Open | internal/cryptobox/cryptobox.go:61-75 | said of the cipher alone: opens exactly the empty text, and a text that holds a nonce under which the rest of it decrypts, to what it decrypts to; a text shorter than a nonce, or one that fails to decrypt, is refused |
| Tokens.StoredIs | postgres/tokens.go:36-142 | after any history a user has a record exactly if a refresh token was saved since the last delete; it holds the last such refresh token, the access token written last by a save or a refresh, and the scopes of the last save |
| Tokens.ConnectedIff | postgres/tokens.go:46-71 | a user is connected exactly if some save with a refresh token is in the history and no delete since |
| Tokens.StaysDisconnected | postgres/tokens.go:112-128 | after a delete, whatever updates and saves without a refresh token land, the user stays disconnected |
| TokenStore.PgTokenStore.Save | postgres/tokens.go:36-72 | the table in the clear changes as the plain map does, with a refresh token whatever was there before, without one if the user's own row opens; each text is sealed under the nonce drawn for it; no other row is touched; it fails, with no effect, exactly without randomness for something to seal or without a database |
| TokenStore.PgTokenStore.Load | postgres/tokens.go:76-108 | the plain map's record, not connected, or an unreadable row reported as such |
| TokenStore.PgTokenStore.UpdateAccess | postgres/tokens.go:112-128 | the plain map's update of access token and expiry, if the user's own row opens; it creates no record and touches no other |
| TokenStore.PgTokenStore.Status | postgres/tokens.go:131-142 | connected exactly if there is a row, readable or not, with the stored scopes |
| TokenStore.PgTokenStore.Delete | postgres/tokens.go:147-160 | removes the user's row, which is gone even if it does not open, and returns its refresh token in the clear exactly if that opens, whatever the other rows are like |
| Clients.Client.CompleteConsent | client.go:167-187 | the state is used up in every case; success stores under the user the state was issued to Google's access token and expiry, Google's refresh token or, where there is none, the one stored before, and the granted scopes or else the requested ones, and touches nobody else's record; every failure leaves all rows alone |
| Clients.Client.AccessToken | client.go:237-257 | Google is asked, with the stored refresh token, exactly if there is no access token, no expiry, or at most 60000 ms are left; else the stored access token is returned; a fresh one is stored with its expiry before it is returned; a row that does not open is reported, and every failure leaves all rows alone |
| Clients.ConsentThenAccess | client.go:167-257 | the two calls in a row: after a successful consent the access token of that grant is returned without asking Google while more than a minute of it is left, and Google is asked with the refresh token of that grant otherwise |
| Clients.Client.Disconnect | client.go:197-209 | afterwards the user is not connected, whether or not they were and whether or not their row opens; a stored refresh token that opens is handed on for revocation, one that does not is an error |
| ConsentRaces.RunInv | client.go:152-257 | over any interleaving: saves and used-up states correspond one to one, no two consents hold one state, and every refresh under way uses a refresh token that was the user's |
| ConsentRaces.SavedForTheIssuedUser | client.go:152-187 | each state that led to a save was issued once, to the user it was saved for, and presented once, within ten minutes; a connected user has such a save |
| ConsentRaces.EndsAreEarned | client.go:237-257 | a consent that ends connected has saved for the issued user; an access token that is handed out was written for its user |
| ConsentRaces.CallbackInTimeIff | client.go:152-171 | a callback is accepted, for the user its state was issued to, exactly until ten minutes after the issue |
| ConsentRaces.FailureEnds | client.go:167-257 | a call whose exchange, refresh or store call fails ends at once, and leaves both stores and every other call as they are |
| ConsentRaces.EndedIsFinal | client.go:167-257 | over all events a call that has ended keeps its outcome |
| ConsentRaces.RefreshNeverReconnects | client.go:197-257 | if a user disconnects while no consent of theirs that could save a refresh token is under way, and none is accepted later, they stay disconnected whichever refreshes and saves land, whenever |
| ConsentRaces.ReconnectsIff | client.go:167-209 | a user who disconnects, and of whom no state is accepted any more, can become connected again by some continuation of events if and only if a consent of theirs was under way at the disconnect that still waits for Google or has a refresh token to save |
| ConsentRaces.SaveConnectsIff | client.go:176-186 | a save that lands leaves its user connected exactly if it brings a refresh token or the user was connected |
| ConsentRaces.ConsentStores | client.go:172-187 | what a consent stores, field by field: access token, expiry and scopes of the grant (the requested scopes where it names none), its refresh token or else the one before |
| ConsentRaces.GrantIsHandedOutIff | client.go:237-257 | after any events that do not write the user's tokens, the access token of that grant is handed out exactly while more than 60000 ms of it are left; otherwise Google is asked with the refresh token then stored |
| ConsentRaces.DisconnectOvertaken | client.go:167-209 | a run from the empty stores that ends with the user connected after the disconnect |
| ConsentRaces.GrantsDoMix | client.go:249-256 | a run from the empty stores that ends with the new refresh token beside an access token minted from the old one |
| ConsentRaces.UpdateLandsOn | client.go:253-256 | whenever a refresh lands, its access token and expiry are stored exactly if the user is connected then, beside the refresh token saved last and the scopes as they were; the two tokens belong together exactly if that is the one the refresh was made with; nobody else is touched |

## Left out

- FlowAgreement.PhaseMeansRun: asks that each task of the event loop run to its end, because the property is false at single continuations; `RunAgreement` needs only that no call cut in at an unguarded write, and `AgreementSurvivesCallsIff` says that this is exactly what is needed.
- FlowRaces.StaleContinueClosesWindowIff: non-interference on the window is not claimed, because a superseded run's catch block closes whatever window is open.
- PipelineHistory.CountsAddUp: asks for no failing store call; with failing calls `CompleteRecordAddsUp` counts the losses exactly.
- PipelineHistory.JobLife: does not say that a claimed job ends, because that is false: the terminal writes use the job's own timeout and their errors are dropped, and a worker can die; `JobCanEndIff` says exactly when it can.
- EndToEnd.SuccessivePolls: speaks of one browser flow; every other client of the pipeline is an arbitrary poller.
- Clients.Client.AccessToken: runs without interruption; interleavings of the same steps are in `ConsentRaces`, on values instead of the two store objects and on rows that open.
- The navigation of the opened windows, window names and their reuse, cross-origin errors of `close()`, and listeners that throw or call back.
- A `fetchJson` that throws synchronously, and error values that are neither errors nor strings.
- HTTP plumbing, handlers, the callback page, endpoint strings, the React and Svelte adapters, the example server.
- Migrations, Postgres column widths and encodings: a value the table cannot hold is a failing store call; metadata and saved ids are maps and sequences.
- Real cryptography and randomness, and the parsing of the hex key.
- Tickers, goroutines, contexts and logging: `Worker.Run`, the sweeper's loop and `Close`; cancellation and timeouts are store calls that fail, loops that stop and workers that die.
- The revocation request to Google, the deletion of the picker session beyond its being the last step, and image header decoding, which is an optional width and height; decoders a host program registers besides JPEG and PNG.
- Parsing of RFC 3339 times and of the scope string.
