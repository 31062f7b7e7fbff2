# Verified model of the reservation, deployment and job system

This project models how compute capacity is reserved, deployed, metered and
returned, as one state machine over tables, and proves what holds over every run
of it. Check it with `dafny verify dfyconfig.toml` (Dafny 4.11).

## What is modelled

Every database call is one atomic step, as one connection with immediate
transactions makes it. Between the steps any number of service calls and workers
interleave, crash, are taken over or are retried. A call holds the rows it has
read, however stale, and later commits one conditional transaction. A storage
error may strike at the beginning of a transaction, at any of its statements or
at its commit.

- `Timestamps`, `Calendar`: instants, the printed form in the tables, the Gregorian
  dates it stands for, and the text order that SQL compares by. Every due time, lease
  and expiry in SQL goes through it.
- `Domain`, `Transactions`, `Calls`, `Queue`: rows and their state machines; what
  each statement demands and each transaction writes; service calls as small-step
  programs; the life of a job row.
- `Invariants`, `Effects`, `Preservation`, `System`, `Reachable`: the invariant of
  the tables, of snapshots, workers and history, and its proof for every step.
- `Theorems`, `Promises`, `Budget`, `Serializability`, `Convergence`, `Timeliness`,
  `Completion`, `Ticks`: what follows over every run.
- `Outcomes`: for every operation a rule on the stored rows, which says who is refused
  and why, and otherwise exactly which rows the operation leaves; each is proved of the
  call run alone.
- `Examples`, `Findings`, `EarlyTimes`: concrete runs from the empty tables, and when
  exactly a claim is too early.
- `Storage`, `Services`, `Workers`, `Reconciliation`: the store, the services, the
  worker and the bulk loop as objects with methods that run step by step, each
  proved to do what the machine does.
- `Idempotency`, `IdempotencySafety`, `IdempotencyLifetimes`, `IdempotentHttp`: the
  protocol of separate claim, complete and abandon steps, its safety, what holds
  while a record stands, and the wrapper with its buffer.
- `Migrations`, `MigrationRuns`: the file list and the interrupted runner.
- `Sessions`: authentication against logout and cleanup.

Clock readings, generated ids and storage errors are parameters. Ids are
arbitrary: where a fresh one matters, a theorem says so. Hashes of tokens, scopes
and bodies are injective, so the hashed values stand for them.

## What the proofs found

- A deployment can be created for a reservation that ended after it was read
  (`DeploymentForReleasedReservation`), and usage can be recorded for a deployment
  that has failed meanwhile (`UsageOfFailedDeployment`), because neither transaction
  looks again. The first phase of `StopDeployment` checks the reservation's version
  when it reads it, but not when it commits (`StopOfReleasedReservation`). Each is a
  concrete run from the empty tables, and for each the exact condition is proved.
- Text order inverts two times of one second when one printed fraction is a proper
  prefix of the other, for instance a whole second and half a second past it. So a
  lease can be taken over (`EarlyTakeover`), a job claimed (`EarlyExpiry`) or a
  session deleted (`EarlyDeletionIsSeen`) up to one second early, and an expired
  idempotency record can be answered from instead of being replaced. None of this
  reaches across a second.
- By the same inversion a metered period of less than a second, though it ends after
  it starts, can be refused by the trigger on usage rows with an internal error
  (`InvertedPeriodIsRefused`).
- An idempotency claimant that settles after its record has been deleted as due can
  complete or abandon the record of another request, which may then be answered with
  the outcome of another body (`LateSettlementLeaks`). At most one claimant is in
  flight as long as none loses its record; once one does, a single further step makes
  two (`CarelessClaimsTwice`).
- A request that read an expired record before it was replaced answers from it
  although a record for another body stands by then (`StaleReaderReplays`). Exactly
  when nothing of the kind is in flight, nothing but its own outcome is answered while
  a record stands (`StaleReplayIsExact`).
- An expiry job that has failed for good or was cancelled is not run again, and exactly
  the reservations of such jobs stay held when the queue is drained
  (`DrainCompletes`).
- A storage error when a request settles blocks its scope until the record expires
  (`UnsettledBlocks`).

## Model

| member | source | states |
|---|---|---|
| `Timestamps.TextOrderIsTimeOrder` | internal/store/store.go:95 | the text order of two stored times with four-digit years is their time order, except that it is reversed exactly when both lie in one second and one printed fraction is a proper prefix of the other (section 5.1 of RFC 3339) |
| `Timestamps.SqlLeAcrossSeconds` | internal/store/jobs.go:44 | the due-time comparison in SQL is right whenever the two times lie in different seconds; when it calls a later time due, the texts are inverted |
| `Timestamps.InversionExample` | internal/store/store.go:95 | a concrete inverted pair: half a second past a whole second counts as earlier than the whole second |
| `Timestamps.ParseTimeInvertsTimestamp` | internal/store/store.go:95-103 | reading back a printed time gives the same instant, for every time with a four-digit year |
| `Calendar.CivilIsGregorian` | internal/store/store.go:95 | the date and time of day of every second, by the closed form of the Gregorian day count, with days in the months' lengths |
| `Calendar.TimestampText` | internal/store/store.go:95 | for four-digit years the stored text is that date and time in the digits and separators of section 5.6 of RFC 3339, with the fraction to its last digit that is not 0 |
| `Calendar.MonthEnds` | internal/store/store.go:95 | concrete ends of a February with 29 and an April with 30 days |
| `Domain.SiteItem.Transition` | internal/domain/site.go:63-71 | the site moves to the next status with its version one higher and its update time set, or is refused and left as it was |
| `Domain.ScenarioItem.Transition` | internal/domain/scenario.go:61-69 | the scenario moves to the next status with its version one higher and its update time set, or is refused and left as it was |
| `Domain.ReservationItem.Transition` | internal/domain/reservation.go:58-66 | the reservation moves to the next status with its version one higher and its update time set, or is refused and left as it was |
| `Domain.DeploymentItem.Transition` | internal/domain/deployment.go:57-73 | the deployment moves with its version one higher, taking endpoint and start time on reaching running and the stop time on reaching stopped, or is refused and left as it was |
| `Queue.NextExists` | internal/store/jobs.go:44 | a queue with any claimable row has a first claimable row in the order of due time and id |
| `Queue.NextUnique` | internal/store/jobs.go:44 | that first row is unique |
| `Queue.NextIsEarliest` | internal/store/jobs.go:44 | the first claimable row is due no later than any other, by the clock, unless their texts are inverted, and never in a later second; of rows due at one time it has the least id |
| `Queue.ClaimableByTheClock` | internal/store/jobs.go:44 | but for inverted texts a job is claimable exactly when it is pending, or running with no lease or one that has run out, and its due time has come |
| `Queue.TotalBackoffClosedForm` | internal/store/jobs.go:101-109 | the delays after n failures add up to 2^n - 1 seconds for n up to 8 and to 255 + 128 (n - 8) seconds beyond |
| `Queue.FailingLifeSchedule` | internal/store/jobs.go:79-91 | a job that fails at every attempt is delayed by the backoffs of all attempts but the last and then is failed for good, at its limit |
| `Queue.ServiceJobDelay` | internal/service/service.go:62-69 | for the service's own jobs, with five attempts, the delays add up to 15 seconds |
| `Queue.RetryIsLater` | internal/store/jobs.go:79-85 | a retry is due strictly after the failure, and the stored texts agree |
| `Storage.Store.Conclude` | internal/store/store.go:77-93 | a transaction's writes stay exactly if every statement succeeded and the commit did; otherwise the tables are those at its beginning |
| `Storage.Store.ClaimCapacity` | internal/store/reservations.go:13-19 | units are taken from an active site that has them, and its version goes up by one; otherwise a capacity error and no change |
| `Storage.Store.ReturnCapacity` | internal/store/reservations.go:71-77 | units go back to a site that has room for them, and its version goes up by one; otherwise a conflict and no change |
| `Storage.Store.InsertSettlement` | internal/store/metering.go:17-19 | a settlement may refer to the usage row inserted by the statement before it |
| `Storage.Store.CreateSite` | internal/store/sites.go:12-15 | the row is inserted unless a constraint or a storage error refuses it, and the error says which |
| `Storage.Store.ReviewSite` | internal/store/sites.go:72-86 | status write on a draft of the expected version, review row and audit row take effect together or not at all, whichever statement fails, with the first failing statement's error |
| `Storage.Store.TransitionSite` | internal/store/sites.go:88-99 | a status write on the expected version and its audit row take effect together or not at all; capacity stays as stored |
| `Storage.Store.CreateScenario` | internal/store/scenarios.go:12-15 | the row is inserted unless a constraint or a storage error refuses it, and the error says which |
| `Storage.Store.StartScenarioReview` | internal/store/scenarios.go:72-79 | a version-checked status write and its audit row take effect together or not at all |
| `Storage.Store.DecideScenario` | internal/store/scenarios.go:81-99 | a version-checked decision, its review row and its audit row take effect together or not at all |
| `Storage.Store.CreateReservation` | internal/store/reservations.go:11-28 | taking capacity, the reservation, its expiry job and the audit row take effect together or not at all, whichever of the four fails |
| `Storage.Store.ChangeReservationAndReturnCapacity` | internal/store/reservations.go:62-80 | the end of a reservation, the return of its units and the audit row take effect together or not at all |
| `Storage.Store.CreateDeployment` | internal/store/deployments.go:10-20 | the deployment, its activation job and the audit row take effect together or not at all |
| `Storage.Store.TransitionDeployment` | internal/store/deployments.go:55-62 | a version-checked move of a deployment and its audit row take effect together or not at all |
| `Storage.Store.StopDeploymentAndRelease` | internal/store/deployments.go:64-85 | the stop of a deployment, the release of its confirmed reservation, the return of its units and the audit row take effect together or not at all |
| `Storage.Store.RecordUsageAndSettlement` | internal/store/metering.go:12-22 | the usage row, the settlement that refers to it and the audit row take effect together or not at all |
| `Storage.Store.ClaimJob` | internal/store/jobs.go:41-69 | claims the row that is due first, with one attempt more and leased from now for as long as was asked, or reports that nothing is due and changes nothing; the conflict branch of the UPDATE is never taken |
| `Storage.Store.CompleteJob` | internal/store/jobs.go:71-77 | marks the job succeeded and frees it if the worker owns it, else a conflict and no change |
| `Storage.Store.RetryJob` | internal/store/jobs.go:79-91 | puts the job back, due in 1 second doubled with each attempt up to 128, or fails it at its limit, if the worker owns it; else a conflict and no change |
| `Storage.Store.CancelJob` | internal/store/jobs.go:93-99 | cancels a pending or running job, else a conflict and no change |
| `Preservation.CallStepKeeps` | internal/service/reservations.go:11-98 | one step of any call, from whatever stale snapshots and with any storage error, keeps every table invariant and moves rows only along their state machines |
| `Preservation.SnapsSurvive` | internal/store/deployments.go:87-100 | whatever else commits, a snapshot has a version at most the row's, and an equal version means an equal row |
| `Preservation.CommitAchieves` | internal/service/reservations.go:78-98 | a committed expiry leaves its reservation ended, a completed activation its deployment started |
| `Reachable.NextKeeps` | internal/worker/worker.go:49-70 | every step of the running system keeps the invariant, crashes, takeovers and storage errors included |
| `Reachable.EveryRunIsSafe` | internal/store/store.go:45-51 | the invariant holds in every state of every run of any number of calls and workers, each database call being one atomic step |
| `Theorems.StepsAreLegal` | internal/store/sites.go:88-99 | every stored change of a row is at most one version and one allowed transition from the row as it is at commit |
| `Theorems.RunIsPast` | internal/store/scenarios.go:93-99 | over any run the rows stay, keep their identity, and never lose versions |
| `Theorems.StatusesOnlyAdvance` | internal/domain/deployment.go:42-55 | over any run no status goes back; decided scenarios, ended reservations and finished deployments never change again |
| `Theorems.CapacityIsConserved` | internal/store/reservations.go:11-80 | in every reachable state available units plus the units of live reservations are the site's total, so nothing is oversold |
| `Theorems.ReturnNeverConflicts` | internal/store/deployments.go:75-82 | a live reservation's units always fit back, so the conflict branches of the capacity returns are unreachable |
| `Theorems.ReturnedAtMostOnce` | internal/store/reservations.go:62-80 | once a reservation has ended, by whichever of release, expiry or stop, its row never changes and no return commits again |
| `Theorems.SuccessLasts` | internal/service/reservations.go:78-98 | in every state after an expiry call has succeeded, whatever else runs, its reservation has ended; after an activation its deployment has started |
| `Theorems.VersionsAreAccounted` | internal/store/sites.go:72-99 | a site's version is one plus its review and transition events plus the versions of all its reservations |
| `Theorems.QualificationChain` | internal/store/scenarios.go:81-91 | a scenario is decided exactly when it has exactly one review row, with that decision, and exactly then its version is 3 |
| `Theorems.ReservationsAreQualified` | internal/domain/reservation.go:30-45 | every reservation ever made is for an approved scenario of the same partner, in the amount that was asked for, and for one minute to seven days |
| `Promises.ReservationsAreAsAsked` | internal/domain/reservation.go:30-45 | in every reachable state every reservation that was answered expires at the time of its request plus the time asked for; its row still says so, and its expiry job names that time and is due then until first claimed |
| `Theorems.DeploymentRunShape` | internal/domain/deployment.go:57-73 | versions count the way from queued, endpoint and start time are there exactly when running was reached, and a reservation has at most one deployment |
| `Theorems.StartedForGood` | internal/domain/deployment.go:65-68 | start time and endpoint are set once and never change |
| `Theorems.ExactlyOneExpiryJob` | internal/service/reservations.go:36-44 | every reservation has exactly one expiry job, and if that has succeeded the reservation has ended |
| `Theorems.ExactlyOneActivationJob` | internal/service/deployments.go:31-43 | every deployment has exactly one activation job, and if that has succeeded the deployment has started |
| `Theorems.AttemptBudget` | internal/store/jobs.go:44-62 | attempts count the claims; they exceed the limit by at most the takeovers, and a job at its limit is never pending |
| `Theorems.LeasesAreFenced` | internal/store/jobs.go:71-91 | a running job is its last claimant's; each claim is settled at most once and only by its claimant; a claim comes before the due time of its job, or before the end of the lease it takes over, exactly when the two times are inverted as texts |
| `Theorems.SettlesIffOwned` | internal/store/jobs.go:71-91 | in every reachable state a settlement changes the tables if and only if the worker still owns the job |
| `EarlyTimes.EarlyTakeover` | internal/store/jobs.go:44-62 | a run in which a second worker takes over a job half a second before the first worker's lease runs out |
| `Theorems.LedgerBalances` | internal/service/metering.go:47 | partner by partner the settlements are 17 times the unit-seconds; usage and settlement rows pair up; metered deployments have started and belong to the billed partner |
| `Theorems.OverflowGuardIsExact` | internal/service/metering.go:44-47 | of the well-formed readings exactly those are refused whose amount exceeds 2^63 - 1; the others are settled at the rate |
| `Theorems.InvertedPeriodIsRefused` | internal/migrate/sql/002_operational_guards.sql:2 | of the readings the service lets through, whose periods end after they start, exactly those with inverted times are refused by the trigger, with an internal error |
| `Budget.ClaimsAreBounded` | internal/store/jobs.go:44-62 | in a run that adds no job the claims number at most the attempts left at its start plus the takeovers |
| `Serializability.RunsAreSerial` | internal/store/store.go:45-51 | the tables of any interleaved run are those of a serial schedule in the order of the commits: whole calls and single statements on the job queue, except for commits of calls that do not look again at a row that is no longer valid, which stand in it with their old snapshots |
| `Serializability.WholeCallsExactly` | internal/store/store.go:45-51 | the schedule of a run is one of whole calls and single queue statements if and only if every commit that does not look again finds what it read still valid; then the tables are those of such a schedule |
| `Serializability.CheckedRunsAreWhole` | internal/store/store.go:45-51 | a run in which no deployment is created or stopped and no usage recorded is, without further condition, one of whole calls and single queue statements |
| `Serializability.CommitsAreAlone` | internal/service/sites.go:37-104 | a commit leaves the tables and the answer of the same call run alone at that moment, if and only if a call that does not look again finds its condition still valid |
| `Serializability.ReserveIsAlone` | internal/store/reservations.go:13-19 | a reservation planned from an old site row is the one that would be planned from the stored row, because the transaction checks the site again and approval is final |
| `Serializability.CreateDeploymentAlone` | internal/service/deployments.go:11-47 | a deployment is created as if run alone exactly when the reservation is still confirmed at the commit, which the code does not check |
| `Serializability.StopStartAlone` | internal/service/deployments.go:95-110 | the first phase of a stop commits as if run alone exactly when the reservation still has the version that was asked for, which the transaction does not check |
| `Serializability.RecordUsageAlone` | internal/service/metering.go:18-24 | usage is metered as if run alone exactly when the deployment is still running or stopped at the commit, which the code does not check |
| `Findings.DeploymentForReleasedReservation` | internal/service/deployments.go:11-47 | in a run from the empty tables a deployment is created for a released reservation, where the same call run alone at its commit refuses |
| `Findings.UsageOfFailedDeployment` | internal/service/metering.go:18-24 | in a run from the empty tables usage is recorded for a failed deployment, where the same call run alone at its commit refuses |
| `Findings.StopOfReleasedReservation` | internal/service/deployments.go:95-110 | in a run from the empty tables a stop begins although its reservation has another version than was asked for, where the same call run alone at its commit refuses |
| `Findings.ActivationReplays` | internal/service/deployments.go:131-163 | wherever an activation was interrupted, running it again takes the deployment to running with an endpoint and a start time |
| `Services.AloneKeeps` | internal/service/reservations.go:11-98 | any call run alone, with any storage error, keeps every table invariant and moves rows only along their state machines |
| `Outcomes.CreateSiteOutcome` | internal/service/sites.go:18-35 | an operator with a name of 3 to 120 characters, a two-letter country, a known zone and 1 to 1,000,000 units, under a name not yet used, gets a draft with all units available; anyone else the first reason; the call run alone does exactly this |
| `Outcomes.ReviewSiteOutcome` | internal/service/sites.go:37-76 | a draft is verified or suspended by the decision; a rejection after the draft meets a stale version, an approval an illegal state; the call run alone does exactly this |
| `Outcomes.TransitionSiteOutcome` | internal/service/sites.go:78-104 | its own operator moves a site along the six moves of the state machine, on the expected version; capacity stays; the call run alone does exactly this |
| `Outcomes.SubmitScenarioOutcome` | internal/service/scenarios.go:18-35 | a partner with a name, sector, classification and 1 to 100,000 units, under a name not yet used, gets a submitted scenario; the call run alone does exactly this |
| `Outcomes.StartReviewOutcome` | internal/service/scenarios.go:37-60 | a submitted scenario of the expected version goes into review; the call run alone does exactly this |
| `Outcomes.DecideOutcome` | internal/service/scenarios.go:62-103 | a scenario in review is approved or rejected by the decision, with its one review row; the call run alone does exactly this |
| `Outcomes.ReserveOutcome` | internal/service/reservations.go:11-48 | an approved scenario of the partner takes its units of an active site that has them, from now for the time asked for, a minute to seven days, with a job that is due when it expires and names it; the call run alone does exactly this |
| `Outcomes.ReleaseOutcome` | internal/service/reservations.go:50-76 | the partner's confirmed reservation of the expected version is released and its units go back; the call run alone does exactly this |
| `Outcomes.ExpireOutcome` | internal/service/reservations.go:78-98 | nothing on an ended reservation, a conflict before its expiry, else it lapses and its units go back; the call run alone does exactly this |
| `Outcomes.CreateDeploymentOutcome` | internal/service/deployments.go:11-47 | the partner's confirmed reservation before its expiry and without a deployment gets one, queued, with the job that activates it; the call run alone does exactly this |
| `Outcomes.AdvanceOutcome` | internal/service/deployments.go:49-77 | an operator moves a deployment along the eight moves of the state machine, to running only with an endpoint of 8 to 500 characters; the call run alone does exactly this |
| `Outcomes.StopOutcome` | internal/service/deployments.go:79-129 | a running deployment begins to stop; a stopping one stops, its confirmed reservation is released and its units go back; the call run alone does exactly this |
| `Outcomes.RecordUsageOutcome` | internal/service/metering.go:13-56 | a reading for the billed partner, of a deployment that runs or has stopped, over at most 31 days not yet metered, is settled at 17 for each unit-second within 64 bits; the call run alone does exactly this |
| `Outcomes.ActivateOutcome` | internal/service/deployments.go:131-163 | a queued or activating deployment is running with its endpoint and start time, a running one as before, any other refused; the call run to its end does exactly this |
| `Outcomes.CommitsArePrepared` | internal/migrate/sql/001_initial.sql:12-28 | a call that changes the tables wrote over no row and for no user without an account, storage errors or not |
| `Outcomes.StorageErrorsUndo` | internal/store/store.go:77-93 | a storage error at the beginning of a transaction that would have committed, at any of its statements or at its commit undoes all of it and is reported; any other error place goes unnoticed |
| `Convergence.ExpiryAlone` | internal/service/reservations.go:78-98 | a due expiry that runs by itself succeeds |
| `Convergence.ExpiryRound` | internal/worker/worker.go:49-70 | a round on a due expiry job leaves the job succeeded |
| `Convergence.DrainConverges` | internal/worker/worker.go:49-96 | from any state of the invariant whose live expiries are due, with the clock standing still, at most one round per job can run, and if nothing is due after them exactly the reservations are held whose expiry job has failed or been cancelled; all units are back if and only if there are none |
| `Convergence.DrainNeverStalls` | internal/store/jobs.go:41-69 | while anything is due, another round can run |
| `Completion.DrainCompletes` | internal/worker/worker.go:32-96 | after any run with monotone clocks whose live expiry jobs are due, whatever rounds a worker has done can be carried on until nothing is due, with at most one round per job in all; at every such end exactly the reservations are held whose expiry job had failed or been cancelled before the drain, and all sites have all their units if and only if there were none |
| `Timeliness.ExpiryJobsAreTimely` | internal/service/reservations.go:32-39 | with a monotone clock an expiry job is never due before its reservation expires |
| `Timeliness.EarlyOnlyIfInverted` | internal/service/reservations.go:87-89 | a worker meets the early-expiry conflict only on a claim whose due time and clock reading are inverted as texts |
| `EarlyTimes.EarlyConflictExactly` | internal/service/reservations.go:87-89 | a claim of an expiry job whose due time is still the expiry of its held reservation can lead to the early-expiry conflict, at some later reading of the clock, if and only if the due time and the time of the claim are inverted as texts |
| `EarlyTimes.EarlyExpiry` | internal/service/reservations.go:87-89 | a run in which a worker claims an expiry job half a second early and its handler meets the conflict of an early expiry |
| `Services.Service.CreateSite` | internal/service/sites.go:18-35 | by an operator, with texts and units in their bounds: a draft site with all its units available, or the first refusal; tables and answer are those of the small-step call run alone, which keeps every table invariant; undisturbed it leaves and answers what `CreateSiteRule` says |
| `Services.Service.ReviewSite` | internal/service/sites.go:37-76 | by an operator on the expected version, with evidence of 4 to 500 characters: verified or suspended, by the decision; tables and answer are those of the small-step call run alone, which keeps every table invariant; undisturbed it leaves and answers what `ReviewSiteRule` says |
| `Services.Service.TransitionSite` | internal/service/sites.go:78-104 | by the site's own operator on the expected version; tables and answer are those of the small-step call run alone, which keeps every table invariant; undisturbed it leaves and answers what `TransitionSiteRule` says |
| `Services.Service.SubmitScenario` | internal/service/scenarios.go:18-35 | by a partner, with texts and units in their bounds: a submitted scenario; tables and answer are those of the small-step call run alone, which keeps every table invariant; undisturbed it leaves and answers what `SubmitScenarioRule` says |
| `Services.Service.StartScenarioReview` | internal/service/scenarios.go:37-60 | by an operator on the expected version; tables and answer are those of the small-step call run alone, which keeps every table invariant; undisturbed it leaves and answers what `StartReviewRule` says |
| `Services.Service.DecideScenario` | internal/service/scenarios.go:62-103 | by an operator on the expected version, with notes of 3 to 1000 characters: approved or rejected; tables and answer are those of the small-step call run alone, which keeps every table invariant; undisturbed it leaves and answers what `DecideRule` says |
| `Services.Service.ReserveCapacity` | internal/service/reservations.go:11-48 | by the scenario's partner: reads scenario and site, plans reservation and expiry job, commits; tables and answer are those of the small-step call run alone, which keeps every table invariant; undisturbed it leaves and answers what `ReserveRule` says |
| `Services.Service.ReleaseReservation` | internal/service/reservations.go:50-76 | by the reservation's partner on the expected version; tables and answer are those of the small-step call run alone, which keeps every table invariant; undisturbed it leaves and answers what `ReleaseRule` says |
| `Services.Service.ExpireReservation` | internal/service/reservations.go:78-98 | nothing on an ended reservation, a conflict on an early one, else its end; tables and answer are those of the small-step call run alone, which keeps every table invariant; undisturbed it leaves and answers what `ExpireRule` says |
| `Services.Service.CreateDeployment` | internal/service/deployments.go:11-47 | by the reservation's partner: reads the reservation, plans deployment and activation job, commits; tables and answer are those of the small-step call run alone, which keeps every table invariant; undisturbed it leaves and answers what `CreateDeploymentRule` says |
| `Services.Service.AdvanceDeployment` | internal/service/deployments.go:49-77 | by an operator on the expected version, with an endpoint of 8 to 500 characters for running; tables and answer are those of the small-step call run alone, which keeps every table invariant; undisturbed it leaves and answers what `AdvanceRule` says |
| `Services.Service.StopDeployment` | internal/service/deployments.go:79-129 | by an operator on the expected versions: begins to stop a running deployment, or stops a stopping one and releases; tables and answer are those of the small-step call run alone, which keeps every table invariant; undisturbed it leaves and answers what `StopRule` says |
| `Services.Service.ActivateDeploymentJob` | internal/service/deployments.go:131-163 | one or two commits from queued or activating, nothing on a running deployment; tables and answer are those of the small-step call run to its end, for storage errors at either commit, and every table invariant is kept; undisturbed it leaves and answers what `ActivateRule` says |
| `Services.Service.RecordUsage` | internal/service/metering.go:13-56 | by an operator for the billed partner: the reading and its settlement at the rate; tables and answer are those of the small-step call run alone, which keeps every table invariant; undisturbed it leaves and answers what `RecordUsageRule` says |
| `Workers.Worker.RunHandler` | internal/worker/worker.go:72-96 | a payload that cannot be decoded and an unknown kind are errors; otherwise the handler makes of the tables what the job's call run to its end makes of them |
| `Workers.HandlerFollowsRule` | internal/worker/worker.go:72-96 | a handler run alone does what the rule of expiry or activation says of its job's aggregate; an unreadable payload and an unknown kind are errors and change nothing |
| `Workers.HandlerNames` | internal/worker/worker.go:77-88 | the handler expires or activates what the payload names, and the row's aggregate where it names nothing |
| `Workers.ActivationRound` | internal/worker/worker.go:49-70 | a round on an activation job ends in success and a running deployment, or, beyond running, in a failed attempt and no change of the deployment |
| `Workers.Worker.RunOne` | internal/worker/worker.go:49-70 | a round changes nothing, or leaves the tables of claiming, handling and settling the first due job |
| `Workers.Worker.Run` | internal/worker/worker.go:32-47 | a bad configuration changes nothing; otherwise the ticks before the context ends are one after another rounds on the first due job, each tick without a storage error claiming exactly if something is due, each claim one entry of this owner in the history, all together one run of the system; as many faultless ticks at a standing clock as there are jobs leave nothing due |
| `Ticks.TickLogs` | internal/worker/worker.go:49-70 | a tick that claims adds to the history its claim, with the attempt number, time and due time, and at most its settlement |
| `Ticks.ClaimsAreCounted` | internal/worker/worker.go:32-47 | the claims of a worker in the history number its ticks that found something due |
| `Ticks.TicksReturn` | internal/worker/worker.go:32-96 | as many ticks at a standing clock as there are jobs, past the due times and leases of the live expiry jobs, leave held exactly the reservations given up before, and so all units back if there were none |
| `Workers.RoundIsRun` | internal/worker/worker.go:49-70 | a round is six steps of the state machine, from any state with the worker at rest, and leaves it at rest |
| `Workers.FailingRuns` | internal/worker/worker.go:49-70 | the row that the retry rule gives after any number of failures is the row of the tables after that many failing rounds of the system |
| `Workers.ServiceJobFails` | internal/service/service.go:62-69 | a job of the service whose handler always fails is failed for good after five rounds of the system, with 15 seconds of delay besides the work |
| `Reconciliation.ReconcileExpiredReservations` | internal/service/reconcile.go:14-35 | fails exactly on a wrong principal, on none or over 100 ids and on an interruption; without storage errors an entry is applied exactly if its reservation exists and has ended or is due by its turn, else it says not found or conflict; each site gets back exactly the units of the distinct newly ended ids |
| `Reconciliation.ExpireEffect` | internal/service/reservations.go:78-98 | an expiry without interference fails and changes nothing, or leaves its reservation ended, lapsing exactly it |
| `Reconciliation.SweepReturns` | internal/store/reservations.go:62-80 | what a sweep gives back to a site is what the ended reservations held there |
| `IdempotencySafety.NextKeeps` | internal/store/idempotency.go:10-75 | every step that does not delete the record of a claimant in flight keeps every claimant's record untouched and every answer backed |
| `IdempotencySafety.CareIsNeeded` | internal/store/idempotency.go:26-34 | a step from a state of the invariant keeps the invariant if and only if it does not delete the record of a claimant in flight |
| `IdempotencySafety.CarelessClaimsTwice` | internal/store/idempotency.go:26-34 | a request's next step deletes the record of a claimant in flight if and only if the step after it gives the scope a second claimant |
| `IdempotencySafety.CarelessRunsClaimTwice` | internal/store/idempotency.go:26-34 | every run in which a claimant in flight loses its record has a moment from which one step brings a second claimant into the scope |
| `IdempotencySafety.AtMostOneClaimant` | internal/httpapi/idempotency.go:57-93 | in every run in which no claimant in flight loses its record, a scope has at most one claimant in flight, and the record carries its body hash |
| `IdempotencySafety.ReplaysAreFaithful` | internal/httpapi/idempotency.go:62-72 | in every such run each record lifetime stores at most one success, and every replay repeats exactly that status and body, for the same body hash |
| `IdempotencySafety.PunctualRunsAreSafe` | internal/httpapi/idempotency.go:57-93 | a run whose claimants settle before the second in which their record expires is such a run, and its end satisfies the invariant |
| `IdempotencySafety.OnlySuccessesAreKept` | internal/store/idempotency.go:55-58 | in every run, careful or not, whatever is stored or replayed has a status from 200 to 299 |
| `IdempotencySafety.RecordIsLostWhenDue` | internal/store/idempotency.go:26-34 | a claimant in flight loses its record to a deletion exactly when the record is due in SQL for the deleting request |
| `IdempotencyLifetimes.WhileRecordStands` | internal/service/idempotency.go:13-30 | in such a run, from the claim of a record to its deletion, only its holder executes in the scope and only requests with the holder's body replay, from that record, provided no request is about to replay an earlier record that it read |
| `IdempotencyLifetimes.StaleReplayIsExact` | internal/store/idempotency.go:22-36 | that condition is exact: nothing but what belongs to the record happens in any continuation while it stands, if and only if no request is about to replay an earlier record |
| `IdempotencyLifetimes.OtherBodiesConflict` | internal/service/idempotency.go:22-24 | in such a run, whoever comes while a record stands and has another body never executes or replays, and ends, if at all, with a conflict or an internal error |
| `IdempotencyLifetimes.StaleReaderReplays` | internal/store/idempotency.go:22-36 | a run whose claimants all settle in time and that shows the exception: a request answers from an expired record that it read before, while a record for another body stands |
| `IdempotencyLifetimes.LateSettlementLeaks` | internal/store/idempotency.go:55-64 | a run in which a claimant settles late: two handlers run at once and a request is answered with the outcome of another body |
| `IdempotentHttp.ExpiredIsClaimable` | internal/store/idempotency.go:26-34 | a record that has expired by the clock can be claimed exactly unless the two stored times are inverted as texts |
| `IdempotentHttp.ServedOutcome` | internal/httpapi/idempotency.go:57-93 | a standing record answers a request with its outcome or a conflict; else the handler does, and its outcome is kept for the window with status 200 to 299 and leaves the scope free with any other |
| `IdempotentHttp.ServedAgain` | internal/httpapi/idempotency.go:62-72 | served again within the window an outcome with status 200 to 299 is replayed, and another body gets a conflict; no record changes |
| `IdempotentHttp.FailedServedAgain` | internal/httpapi/idempotency.go:84-86 | an outcome with any other status leaves the scope free, and the next request executes |
| `IdempotentHttp.ItemOfExactly` | internal/idempotency/scope.go:10-20 | a signed-in request with a key of 8 to 200 characters and a body of at most 1 MiB claims for 24 hours, whatever the case of its method; all others are refused as unauthorized or invalid |
| `IdempotentHttp.UnsettledBlocks` | internal/httpapi/idempotency.go:79-86 | a request whose settlement meets a storage error blocks its scope: until the record expires every further request gets a conflict and changes nothing |
| `IdempotentHttp.ServedIsRun` | internal/store/idempotency.go:10-75 | serving a request without interference, with a storage error at any of its database calls, is a run of the protocol |
| `IdempotentHttp.BufferedResponse.WriteHeader` | internal/httpapi/idempotency.go:26-30 | the first status that is set stays |
| `IdempotentHttp.BufferedResponse.Write` | internal/httpapi/idempotency.go:32-37 | a write appends to the body and sets status 200 if none was set |
| `IdempotentHttp.FirstStatusStays` | internal/httpapi/idempotency.go:26-37 | the outcome has the first status that is set, 200 by a first write or by default |
| `IdempotentHttp.BodiesAppend` | internal/httpapi/idempotency.go:32-37 | the outcome's body is all that was written, in order |
| `IdempotentHttp.ServeHTTP` | internal/httpapi/idempotency.go:73-78 | the buffer ends with the first status and the concatenated writes of the handler |
| `IdempotentHttp.RecordStore.ClaimIdempotency` | internal/store/idempotency.go:10-37 | claims a free or expired scope, else returns the record that stands and changes nothing, with a storage error at any of its statements; the recursion ends |
| `IdempotentHttp.RecordStore.CompleteIdempotency` | internal/store/idempotency.go:55-64 | stores an outcome with status 200 to 299 on an unsettled record, else an error and no change, storage errors included |
| `IdempotentHttp.RecordStore.AbandonIdempotency` | internal/store/idempotency.go:66-75 | removes an unsettled record and nothing else, or changes nothing on a storage error |
| `IdempotentHttp.Idempotent` | internal/httpapi/idempotency.go:39-95 | refuses bad requests without touching a record; otherwise claims, runs, completes or abandons and answers, or replays, as specified for any storage errors |
| `Migrations.Load` | internal/migrate/migrate.go:59-87 | accepts exactly the lists whose scripts are well named and whose versions are a permutation of 1 to n, and returns them in version order; each is the script of a file, with its name and text, and every file gives one |
| `Migrations.ParsesNumbered` | internal/migrate/migrate.go:66-78 | a file named by a positive number, however padded, an underscore and anything else is the script of that version under its name and with its text |
| `Migrations.ParsesNothingElse` | internal/migrate/migrate.go:66-69 | no other name is accepted: up to its first underscore it is the digits of a positive 64-bit version, after a plus sign or none |
| `Migrations.ContiguousIffPermutes` | internal/migrate/migrate.go:80-85 | after any sort the contiguity check passes exactly on permutations of 1 to n |
| `MigrationRuns.AlwaysAPrefix` | internal/migrate/migrate.go:24-57 | over any sequence of launches, interrupted anywhere and with a growing list, what has taken effect is a prefix, each script once and in order, and success means all of it |
| `MigrationRuns.GoesOn` | internal/migrate/migrate.go:48-56 | a launch goes on where the last one stopped, to the end or to the script that is struck |
| `MigrationRuns.UnknownIffShrunk` | internal/migrate/migrate.go:36-47 | a ledger that is a prefix is refused exactly by a list that is too short for it, and then nothing is run |
| `MigrationRuns.Schema.ApplyOne` | internal/migrate/migrate.go:109-125 | a script and its ledger row take effect together or not at all |
| `MigrationRuns.Schema.Apply` | internal/migrate/migrate.go:24-57 | a list that does not load changes nothing; otherwise the launch is the one specified, on the scripts in version order |
| `Sessions.CleanupIsUnobservable` | internal/service/auth.go:96-123 | a cleanup inserted anywhere into any run changes no answer of an authentication whose clock reading is not earlier, unless it deletes a session early |
| `Sessions.CleanupIsSeenExactly` | internal/store/identity.go:102-112 | a cleanup is seen by a later authentication exactly when it deletes a session that is still good at that reading, by the clock and in SQL |
| `Sessions.EarlyMeansInverted` | internal/store/identity.go:103 | a session is deleted early only within its second of expiry and only when the texts are inverted |
| `Sessions.EarlyDeletionIsSeen` | internal/store/identity.go:102-112 | a concrete session that is deleted early and missed |
| `Sessions.RevokeIsFinal` | internal/store/identity.go:86-100 | once a revocation has committed, an authentication that read the session before it fails as well |
| `Sessions.AuthenticatesExactly` | internal/service/auth.go:96-112 | an authentication succeeds exactly with the token of a session that is not revoked and not expired, by the clock and in the stored texts, of an active user |
| `Sessions.SessionStore.Authenticate` | internal/service/auth.go:96-112 | succeeds exactly on a known, active, unrevoked, unexpired session that the touch finds, and then only touches it |
| `Sessions.SessionStore.TouchSession` | internal/store/identity.go:86-92 | touches exactly an unrevoked session that is not due |
| `Sessions.SessionStore.RevokeSession` | internal/store/identity.go:94-100 | revokes exactly a session that was not revoked |
| `Sessions.SessionStore.DeleteExpiredSessions` | internal/store/identity.go:102-112 | deletes exactly the sessions that have expired or were revoked a day ago, and counts them |

## Left out

- HTTP routing, JSON encoding, error-to-status mapping, logging, request ids, health, configuration, start and shutdown: plumbing.
- Trimming: texts arrive trimmed. Upper case is that of ASCII letters. Text lengths are numbers of characters, and whether the time zone database knows a zone is a parameter.
- Password hashing, tokens, email parsing and user administration: users are a set of ids that only grows, and an inactive set for sessions.
- List queries and pagination: they change nothing.
- Columns that no decision reads, such as creation times of reviews and ledger rows, audit details and request ids.
- JSON decoding of job payloads: a payload is the decoded object, or nothing where none can be decoded.
- The 64-bit range of versions and attempts: they are unbounded integers here. The amounts of the ledger keep the range check of the code.
- A commit that is reported as failed although it took effect.
- Reads of a running transaction that fail half way: a failing read ends the call in the machine; the service objects read without failing.
- `classify` distinguishes errors by their message; here each statement gives the class of its constraint, and every other storage error is internal.
- The timer of the worker's loop: the ticks before the context ends are a given sequence.
- Workers.Worker.RunHandler: the outcome of a session cleanup is a parameter, because the cleanup works on tables that no other job touches; it is modelled in `Sessions`.
- `CancelJob` has no caller in the services; it is a step of the machine that may happen at any time.
- Times before year 0 and after year 9999, where the printed form has another width; theorems that need the range say so.
- Sorting is any sort by version; the order that the library gives to equal versions is left open, and such lists are refused.
- Claims that the code does not keep, and that are not claimed here: a live deployment has a confirmed reservation; a stopped deployment has released; an active site has an approving review; attempts stay within the limit under takeover; usage periods do not overlap.
- IdempotencySafety.AtMostOneClaimant: holds of runs in which no claimant in flight loses its record to a deletion; `CarelessRunsClaimTwice` shows that every other run leads to two claimants.
