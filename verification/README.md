# Formal model of the control plane's stateful kernels

This Dafny project models the parts of the system that decide something by themselves, and proves what they promise.
Postgres, Microsoft Graph, Key Vault and the browser session are small abstract stores with atomic steps; what they answer
is a parameter or a nondeterministic choice.

- **Job protocol** (`Scheduler`, `SchedulerSafety`, `SchedulerTheorems`, `SchedulerRows`, `SchedulerWitnesses`,
  `SchedulerPicks`, `SchedulerEdits`, `SchedulerDeeds`, `SchedulerLoop`). Scheduler ticks and run-now threads as a state
  machine at statement and commit granularity, with uncommitted writes, row locks, session advisory locks under an
  arbitrary hash, crashes at any statement, startup recovery, and the administrators' writes. `SchedulerLoop` has the
  two functions themselves, statement by statement, as stretches of runs of that machine; how a call ends says which
  commits it has made, and `SchedulerDeeds` what they mean.
- **Copilot usage sync** (`KeyedRows`, `UsageReports`, `UsageAggregates`). Row merging, prompt aggregation, replacement.
- **Signed licence** (`CanonicalJson`, `CanonicalJsonProofs`, `CanonicalForm`, `CanonicalText`, `LicenseArtifact`,
  `LicenseInspection`, `LicenseCache`). Canonical JSON printer and RFC 8259 reader, artifact splitter, acceptance, and the keyed summary cache
  under any number of threads.
- **Database timing** (`RequestTiming`), **feature-flag broadcaster** (`FeatureFlagsStream`), **policy manager**
  (`ConditionalAccess`).
- **Last-known-good configuration** (`RuntimeConfig`, `RuntimeConfigOverlap`). Lookups that follow one another, and every
  interleaving of lookups that overlap at their vault requests.
- **Delegated tokens and roles** (`DelegatedAuth`, `DelegatedAuthTheorems`, `DelegatedAuthHistory`,
  `DelegatedAuthStore`, `DelegatedAuthWitnesses`). Every interleaving of requests at their awaits, with sign-ins and
  sign-outs.
- **Materialized-view queue** (`MvRefresh`, `MvRefreshHistory`, `MvRefreshRun`), **CSV rows** (`Csv`), **pagination**
  (`Pagination`).

Where a promise does not hold of the code, the model keeps the code as it is; a lemma shows a concrete run and another
states exactly when the promise holds:

- Recovery fails exactly the orphans if and only if no live connection owns a running row
  (`RecoveryFailsExactlyOrphans`); a recovery during an execution flips a failed row to success
  (`RecoveryDuringExecutionFlipsRow`; `TerminalRowsChangeIff` and `OwnedTerminalWasTaken` say exactly when). One worker
  process is enough for that: recovery runs in the scheduler thread, which starts as the module is loaded, while the web
  server's threads may already have claimed a run-now.
- Two rows of one job can be visibly running: the unlock precedes the final commit (`TwoRunningRowsCanBeVisible`), and a
  crash leaves a row behind whose lock is free (`OrphanAndClaimAreVisible`). `RunningRowsLinger` and `ClaimLeavesTwoIff`
  say exactly when; exclusion is about executing sessions.
- A broadcast loop that fails while a notification is queued loses that update (`FailureLosesUpdate`,
  `FreshAfterFailure`).
- A windowed usage sync deletes every user's hours in the window, but is exported only the users it chose, resolved and got
  an answer for, and of those only times strictly between two whole seconds. So a bucket it replaces loses all prompts of
  a user who was not listed or answered, and otherwise exactly those in the first hour up to the whole second of the
  window's start, or from the whole second of its end on; a user listed twice counts twice (`SyncWindow`,
  `PromptsDroppedByWindow`). Every window has such an edge, on the hour or not (`EveryWindowHasAnEdge`). A sync of all
  time, the default, deletes the whole stored history of a listed user whose export was skipped (`SyncAllTime`).
- Two overlapping lookups of a variable can lose a value already returned, or leave the last-known-good entry older than
  the environment (`ReturnedValueIsLost`, `OutdatedValueIsServed`; `ValueLostIff`, `StoresAgreeIff` and
  `AtomicIffUpToDate` say exactly when).
- A signature equal to the delimiter's mark, on a line of its own, counts as a second delimiter (`JoinedSplits`).
- A token with a recorded expiry of zero never counts as expired (`ZeroExpiryIsServed`). A sign-out while a role check
  asks the directory leaves a role without a stamp, which the signed-out identity is then granted
  (`RoleServedAfterSignOut`; `StaysStamped` and `ServedRoleIsCurrent` give the exact condition). A refresh in flight
  brings a signed-out identity's state back (`StateAppearsIffSaved`).
- A stale view can be left without a mark in three ways: enqueued between its refresh and its deletion from the queue
  (`EnqueueBetweenIsLost`), changed in a transaction that was open across the deletion (`WriteAcrossDeletionIsLost`), or
  by an enqueue whose error is swallowed (`DroppedEnqueueIsLost`); `MarkLostIff` says exactly when over every run. The
  attempts update stands outside the `try`, so its failure ends the run.

`dafny verify dfyconfig.toml` checks the whole project.

## Model

| member | source | states |
|---|---|---|
| SchedulerSafety.StepPreserves | worker/app/scheduler.py:57-219 | every statement, commit, crash, recovery and administrator's write keeps the invariant: held locks are owned, row locks and run ids are exclusive, pending rows are unpublished |
| SchedulerSafety.InvAlways | worker/app/scheduler.py:57-219 | the invariant holds in every state of every run, for every hash of job ids to lock keys |
| SchedulerTheorems.ExecutionIsExclusive | worker/app/scheduler.py:153-190 | two sessions between lock and unlock never share a lock key, so never a job; an executing session holds its job's lock and its run row is already committed |
| SchedulerTheorems.ConsumptionIsSound | worker/app/scheduler.py:98-168 | at the commit that consumes a due slot the schedule and its job are enabled, the slot is due, the new due time is strictly after the claim, and the run row appears in that commit |
| SchedulerTheorems.AdvanceAndRunTogether | worker/app/scheduler.py:129-168 | outside administrators' writes a due time moves exactly when a slot is consumed, and a scheduled run row appears exactly when that was not a licence skip |
| SchedulerTheorems.SlotsAreConserved | worker/app/scheduler.py:98-168 | over every run, crashes included: advances of due schedules = scheduled run rows + licence skips |
| SchedulerTheorems.DueTimeNeverFalls | worker/app/scheduler.py:164-168 | no step but an administrator's write or a disabling lowers a due time or clears it |
| SchedulerTheorems.DueTimeRises | worker/app/scheduler.py:98-168 | between two states with no reset of the schedule its due time never falls |
| SchedulerTheorems.EachSlotConsumedOnce | worker/app/scheduler.py:98-168 | two consumptions of one schedule with no reset in between are of different slots: the later due time is past the earlier claim |
| SchedulerTheorems.DisabledIsOut | worker/app/scheduler.py:222-281 | a schedule disabled for its cron expression is no candidate for a tick any more, and one failed, finished row of its job records the reason; nothing else changes |
| SchedulerRows.RowStep | worker/app/scheduler.py:185-190 | a step changes a run row exactly when recovery finds it running or its owner's final commit writes something else; it is then not running, and keeps its job, trigger and start |
| SchedulerRows.RowsNeverRunAgain | worker/app/scheduler.py:185-190 | over every run a row never disappears, and once it has left running it never runs again |
| SchedulerRows.FinalCommitDisowns | worker/app/scheduler.py:185-190 | the final commit leaves a terminal row that nobody owns |
| SchedulerRows.UnownedRowsAreFrozen | worker/app/scheduler.py:183-190 | a terminal row that no connection owns never changes again |
| SchedulerRows.TerminalRowsChangeIff | worker/app/scheduler.py:185-190 | a terminal row changes if and only if the final commit of the connection that still owns it writes something else, which happens once at most |
| SchedulerRows.OwnedTerminalWasTaken | worker/app/scheduler.py:320-338 | a connection whose row is terminal has lost it to a recovery that ran while it was at work |
| SchedulerRows.RowsOnlyFinish | worker/app/scheduler.py:183-190 | a row leaves running once and is frozen from then on, unless a recovery took it from a connection at work |
| SchedulerRows.RecoveryFailsExactlyOrphans | worker/app/scheduler.py:320-338 | recovery fails every running row with a finish time, keeps an error already recorded and touches no other row; those rows are exactly the orphans if and only if no live connection owns a running row |
| SchedulerRows.RecoveryIsSafeIffQuiet | worker/app/scheduler.py:320-338 | recovery leaves every live connection its running row if and only if no connection is between claim and final commit |
| SchedulerRows.OrphanStep | worker/app/scheduler.py:218-219 | a running row becomes an orphan only through the close of the connection that owned it |
| SchedulerRows.RunningRowsAreAccountedFor | worker/app/scheduler.py:320-338 | every running row is owned by a live connection, was an orphan at the start, or was orphaned by a close |
| SchedulerRows.RunningRowsLinger | worker/app/scheduler.py:153-190 | over every run, of two running rows of one job one is an orphan or its connection is between unlock and final commit |
| SchedulerRows.ClaimLeavesTwoIff | worker/app/scheduler.py:163-168 | a claim leaves its job with two running rows if and only if a running row of the job is an orphan or its connection is between unlock and final commit |
| SchedulerRows.OnlyClaimsAdd | worker/app/scheduler.py:163-168 | no other step gives a job a second running row |
| SchedulerWitnesses.TwoRunningRowsCanBeVisible | worker/app/scheduler.py:189-190 | the unlock before the commit: a run after which two rows of one job are visibly running |
| SchedulerWitnesses.OrphanAndClaimAreVisible | worker/app/scheduler.py:153-168 | a crash and the next claim: another run after which two rows of one job are visibly running |
| SchedulerWitnesses.RecoveryDuringExecutionFlipsRow | worker/app/scheduler.py:38-55 | a recovery while a job executes: the row is failed and later turns into success |
| SchedulerLoop.OthersLeave | worker/app/scheduler.py:57-219 | a connection stays where it is through any number of steps of others |
| SchedulerPicks.RowLockedIff | worker/app/scheduler.py:57-219 | over every run, a connection has a schedule's row locked exactly when it locked it, by one of the two queries or the disabling update, in a transaction that has not been committed, rolled back or closed |
| SchedulerPicks.JobRowLockedIff | worker/app/scheduler.py:98-112 | likewise for the row of a job, which the query for due schedules locks |
| SchedulerPicks.DueQuery | worker/app/scheduler.py:98-112 | the second query takes exactly the earliest schedule that is enabled, of an enabled job, due when its transaction began, and with neither its row nor its job's locked by another; and nothing exactly when there is none |
| SchedulerPicks.NewQuery | worker/app/scheduler.py:61-71 | the first takes exactly the enabled schedule without a due time of least id whose row no other has locked; and nothing exactly when there is none |
| SchedulerPicks.TransactionTime | worker/app/scheduler.py:57-219 | over every run the time of a transaction, which dates what it writes, is the clock at its first statement |
| SchedulerPicks.RunTimes | worker/app/scheduler.py:185-188 | a claimed row starts when the transaction that claims it began, and a concluded one is finished when the one that concludes it did |
| SchedulerEdits.WriteSays | web/app/api/schedules/route.ts:98-199 | a pause disables a schedule, a resumption enables it, and both take its due time; a new schedule is enabled; an edited one has the new expression and time; no write touches another schedule or any run |
| SchedulerEdits.PausedIsNotTaken | worker/app/api.py:187-215 | over every run no tick takes a schedule from its pause to the next write to it |
| SchedulerEdits.ResumedCatchesUpNothing | worker/app/api.py:217-247 | over every run, from a resumption to the next write, the due time of the schedule is later than the resumption, so no slot missed during the pause is run |
| SchedulerDeeds.CommitMeans | worker/app/scheduler.py:57-291 | what a commit does to the tables is what its deed says: a run claimed, with the due slot of its schedule if it was a tick; a slot skipped; a due time given to a new schedule; an outcome committed; a schedule disabled, with a failed row that says why |
| SchedulerDeeds.DeedsAreSound | worker/app/scheduler.py:57-219 | over every run, each deed of a connection is one of its commits in the stretch, with that effect |
| SchedulerDeeds.CommitIsDeed | worker/app/scheduler.py:57-219 | and each of its commits in the stretch is the deed at its place |
| SchedulerDeeds.NoDeedNoChange | worker/app/scheduler.py:57-219 | without a new deed in a stretch none of the connection's steps in it has touched a table |
| SchedulerDeeds.ClaimIsNew | worker/app/scheduler.py:466-475 | a run claimed in a stretch of a run is in no state before the stretch |
| SchedulerLoop.Cluster.CommitNow | worker/app/scheduler.py:91-91 | a commit is the one statement that adds a deed, and it adds one |
| SchedulerLoop.Cluster.TryAdvisoryLock | worker/app/db.py:113-126 | the lock statement succeeds exactly when the key is free at that moment, and then the key is the caller's; otherwise no lock changes and the call is over |
| SchedulerLoop.Cluster.LockOrLeave | worker/app/scheduler.py:153-161 | a call ends as busy only if the job's key was held at its lock statement, and has then done nothing |
| SchedulerLoop.Cluster.InsertJobRun | worker/app/scheduler.py:466-475 | the claim inserts a row under an id never used before, invisible until the commit |
| SchedulerLoop.Cluster.CommitClaim | worker/app/scheduler.py:163-168 | the commit makes the claimed row visible, running, for this job, and is the only thing the claim has done to the tables |
| SchedulerLoop.Cluster.AdvisoryUnlock | worker/app/db.py:129-140 | the unlock frees the job's key and leaves the run rows as they were, the outcome still invisible |
| SchedulerLoop.Cluster.CommitRun | worker/app/scheduler.py:185-190 | after the final commit the run row is still of its job and carries the outcome, and nobody owns it |
| SchedulerLoop.Cluster.Claim | worker/app/scheduler.py:153-168 | from the lock to the committed claim, whichever statement raises: the call ends with a visible running row of the job, claimed by one commit, or with a closed connection and nothing done |
| SchedulerLoop.Cluster.ClaimAndExecute | worker/app/scheduler.py:153-219 | from the lock to the closed connection: a finished call has made exactly one claim, of a run of this job, and one commit of its outcome; a busy one has done nothing |
| SchedulerLoop.Cluster.ExecuteJob | worker/app/scheduler.py:183-219 | from the claim to the closed connection: a reported outcome is the row's, and no later step can change it |
| SchedulerLoop.Cluster.CheckLicense | worker/app/scheduler.py:129-151 | a due slot is skipped only if the licence refuses, by one commit, and the call goes on only if the licence allows the job or does not guard it |
| SchedulerLoop.Cluster.CommitDisabling | worker/app/scheduler.py:235-281 | at the commit the schedule is disabled without a due time, and a failed row of the job has the reason |
| SchedulerLoop.Cluster.DisableInvalidSchedule | worker/app/scheduler.py:222-291 | once connected, whatever raises is swallowed; if nothing raises, the schedule is disabled and a failed run with the reason recorded, by one commit, unless its row was locked or gone; if something does, nothing is done |
| SchedulerLoop.JobTypesStay | worker/app/scheduler.py:98-127 | over every run a job keeps its type, so what the licence check saw still holds |
| SchedulerLoop.Cluster.RunDueSchedule | worker/app/scheduler.py:57-219 | one tick, amid any steps of others and whichever of its statements raises, is a stretch of a run of the machine that ends with its connection closed, and its end says what it has done: finished means one claim, of a new run for a slot, and one commit of its outcome, which stands for good; skipped one licence skip, of a guarded job; initialised one due time; disabled one disabling for a cron expression that does not parse, or its row was locked or gone or a statement of it raised; nothing due means that others had locked every schedule without a due time, and then every one due by that time or its job; busy that the job's key was held; it raises only if a statement does that fits what it has done. The schedule is the one its query had to take, the due times are those of the cron expression, and a gated job is claimed only if the licence allows it |
| SchedulerLoop.Cluster.Progress | worker/app/scheduler.py:57-219 | if at each of its steps some schedule is due and free, none is without a due time, and nothing raises, a tick ends with a finished run, a slot skipped for the licence, a schedule disabled for its cron expression, or the job's key held |
| SchedulerLoop.Cluster.RunJobOnce | worker/app/scheduler.py:376-463 | the run-now thread likewise: refused, before it connects, exactly when the job is gated and the licence refuses, busy only if the job's key was held, and finished only with one claim, of a new run of this job, and its outcome committed |
| SchedulerLoop.Cluster.DoneSince | worker/app/scheduler.py:57-219 | whatever a call says it has done, a commit of its stretch did, with what the deed means as its effect |
| SchedulerLoop.ClosedHoldsNothing | worker/app/scheduler.py:218-219 | a closed connection holds no advisory lock |
| RequestTiming.RequestTimingContext.BeginDbTiming | web/app/lib/request-timing.ts:135-144 | a query that begins keeps the counters equal to the history of intervals |
| RequestTiming.RequestTimingContext.EndDbTiming | web/app/lib/request-timing.ts:146-159 | a query that ends keeps them so, whatever the order in which overlapping queries end |
| RequestTiming.RequestTimingContext.FinalizeDbWallMs | web/app/lib/request-timing.ts:101-106 | the result is the number of milliseconds before t with at least one query in flight, at most the query sum (open queries counted to t), at most the elapsed time |
| RequestTiming.BusyAtMostSum | web/app/lib/request-timing.ts:146-151 | the measure of the union of intervals is at most the sum of their lengths |
| RequestTiming.BusyAtMostElapsed | web/app/lib/request-timing.ts:101-106 | the measure of the union is at most the elapsed time |
| RequestTiming.OpenCountIsZeroIff | web/app/lib/request-timing.ts:140-143 | the active counter is zero exactly when every query has ended |
| FeatureFlagsStream.NextKeepsInv | web/app/lib/feature-flags-stream.ts:91-110 | every stretch of code keeps: one loop at most, and `broadcastQueued` says exactly whether the fetch in flight is older than the last notification |
| FeatureFlagsStream.RunIsHistory | web/app/lib/feature-flags-stream.ts:164-182 | over every run exactly those are subscribed who have subscribed and not unsubscribed since, from the moment they joined, and the notice is that of the last notification |
| FeatureFlagsStream.PayloadsGoToSubscribers | web/app/lib/feature-flags-stream.ts:97-104 | a payload goes to all subscribers when a fetch succeeds, to those reached before a loop fails, to nobody else, and is that of the fetch in flight |
| FeatureFlagsStream.NoUpdateLost | web/app/lib/feature-flags-stream.ts:91-128 | over every run at most one loop is in flight, and when none is and the last did not fail, every subscriber present since the last notification has a payload fetched at or after it |
| FeatureFlagsStream.FreshAfterFailure | web/app/lib/feature-flags-stream.ts:97-107 | after a failed loop exactly the subscribers already reached are up to date, provided no notification was waiting |
| FeatureFlagsStream.FailureLosesUpdate | web/app/lib/feature-flags-stream.ts:97-107 | a failing fetch with a notification queued: the update is lost, and nothing retries it |
| FeatureFlagsStream.BroadcasterState.OnNotification | web/app/lib/feature-flags-stream.ts:91-99 | the handler does one step of the machine |
| FeatureFlagsStream.BroadcasterState.OnPayload | web/app/lib/feature-flags-stream.ts:98-107 | delivery and the exit test of the loop, with the `.finally`, are one step of the machine |
| FeatureFlagsStream.BroadcasterState.OnFailure | web/app/lib/feature-flags-stream.ts:97-107 | a rejected fetch or a callback that throws ends the loop |
| FeatureFlagsStream.BroadcasterState.AddSubscriber | web/app/lib/feature-flags-stream.ts:164-170 | subscribing is one step of the machine |
| RuntimeConfig.LookupRefinesHistory | worker/app/runtime_config.py:161-186 | when lookups of a variable follow one another, each returns the latest vault value there ever was, else the initial environment value, else the default, or the error for a required variable whose lookup failed |
| RuntimeConfig.LatestIsGivenLast | worker/app/runtime_config.py:161-171 | the latest value is that of the last answer with a secret that is neither the sentinel nor blank |
| RuntimeConfig.SinceAbsentIsSuffix | web/app/lib/proxy-runtime-env.ts:94-100 | the proxy's history begins right after the last answer that there is no secret, or that it is the sentinel or blank |
| RuntimeConfig.StateIsKnown | web/app/lib/runtime-env.ts:194-228 | the environment then holds what the history determines, and the last-known-good entry never disagrees with it |
| RuntimeConfig.ValueNeverLost | worker/app/runtime_config.py:178-186 | once a value has been returned no later call that follows loses it |
| RuntimeConfigOverlap.AtomicIffUpToDate | web/app/lib/runtime-env.ts:194-228 | a lookup that overlaps others ends as if it had happened all at once at the vault's answer if and only if the answer makes no use of the value read before the request, or that value still stands |
| RuntimeConfigOverlap.NoOverlapIsUpToDate | web/app/lib/runtime-env.ts:194-202 | that is always so when lookups do not overlap |
| RuntimeConfigOverlap.AnswersRefineHistory | web/app/lib/runtime-env.ts:194-228 | when it is so throughout, answers are those of the history of the vault's answers in their order |
| RuntimeConfigOverlap.ValueLostIff | worker/app/runtime_config.py:167-174 | over every interleaving, a value that was there is gone if and only if a lookup that had read none was told the secret is unset, and no lookup has given a value since |
| RuntimeConfigOverlap.LossIsSeen | worker/app/runtime_config.py:178-186 | a lookup that begins then and fails gives no value, and otherwise it does |
| RuntimeConfigOverlap.StoresAgreeIff | worker/app/runtime_config.py:167-182 | the last-known-good entry agrees with the environment throughout if and only if no lookup stores a value it had read although the variable has another by then |
| RuntimeConfigOverlap.ReturnedValueIsLost | web/app/lib/runtime-env.ts:194-227 | a run that loses a value already returned: the next failing lookup raises |
| RuntimeConfigOverlap.OutdatedValueIsServed | web/app/lib/runtime-env.ts:194-222 | a run after which a failing lookup gives the initial value although a newer vault value is in the environment |
| RuntimeConfig.ProxyRefinesHistory | web/app/lib/proxy-runtime-env.ts:80-111 | the proxy's answers are those of a history that forgets everything before the last unset answer |
| RuntimeConfig.ProxyStateIsKnown | web/app/lib/proxy-runtime-env.ts:71-78 | what the proxy keeps is what that shorter history determines |
| RuntimeConfig.MachinesAgreeIff | web/app/lib/proxy-runtime-env.ts:80-111 | worker and proxy answer alike if and only if the latest vault value was given since the last unset answer, or is the initial value anyway, and the proxy does not raise for a variable that may be missing |
| RuntimeConfig.MachinesAgreeWithoutAbsent | web/app/lib/proxy-runtime-env.ts:80-111 | on a history without an unset answer they answer alike, except that the proxy raises where the worker gives the default for a variable that may be missing |
| RuntimeConfig.MachinesDifferAfterAbsent | web/app/lib/proxy-runtime-env.ts:98-100 | a value, then unset: the worker keeps the value, the proxy drops it |
| RuntimeConfig.RuntimeEnvironment.FinishGetRuntimeEnv | worker/app/runtime_config.py:167-186 | from the vault's answer on, with the value read before the request: environment and map change as the machine says, other variables do not |
| RuntimeConfig.RuntimeEnvironment.GetRuntimeEnv | worker/app/runtime_config.py:161-186 | a whole call with no other lookup in between, and a call that needs no vault |
| RuntimeConfig.ProxyEnvironment.Fallback | web/app/lib/proxy-runtime-env.ts:71-78 | the fallback keeps or deletes the entry |
| RuntimeConfig.ProxyEnvironment.GetProxyRuntimeEnv | web/app/lib/proxy-runtime-env.ts:80-111 | the method updates its map as the machine does and never the environment |
| ConditionalAccess.CallRefines | worker/app/conditional_access.py:98-209 | an accepted call adds or removes one user of one bot's set, a refused one changes nothing; at most one policy a bot, no empty or repetitive list, foreign policies untouched |
| ConditionalAccess.RunRefines | worker/app/conditional_access.py:98-209 | over every sequence of calls the store is the map from bots to sets of blocked users that the calls describe |
| ConditionalAccess.PolicyIffBlocked | worker/app/conditional_access.py:185-193 | a policy exists exactly when its set is non-empty |
| ConditionalAccess.NamesAreDistinct | worker/app/conditional_access.py:34-35 | two bots never share a policy name |
| ConditionalAccess.ConditionalAccessManager.FindPolicyForBot | worker/app/conditional_access.py:72-83 | it finds a policy of the bot if and only if there is one |
| ConditionalAccess.ConditionalAccessManager.BlockUser | worker/app/conditional_access.py:98-154 | it succeeds if and only if the application is configured, the read is not refused, and the write is not refused unless the user is on the bot's list already; then the bot's set gains the user and the policy is named, and otherwise nothing happens |
| ConditionalAccess.ConditionalAccessManager.UnblockUser | worker/app/conditional_access.py:158-209 | it succeeds if and only if the read is not refused, and the write is not refused unless there is no policy or the user is not on its list; then the bot's set loses the user, and the policy is named if it is left; otherwise nothing happens |
| Csv.CellReadsBack | web/app/lib/csv.ts:12-19 | a reader of RFC 4180 section 2 rules 5 to 7 gives back the cell, whatever follows it |
| Csv.QuotedIffNeeded | web/app/lib/csv.ts:12-19 | a cell is quoted exactly when it holds a character that the format allows only in quotes, and else stays as it is |
| Csv.RowRoundTrip | web/app/lib/csv.ts:21-23 | a row of one or more cells reads back to exactly those cells |
| Csv.FileRoundTrip | web/app/lib/csv.ts:21-23 | a whole export reads back, cells with line feeds included |
| Csv.RowIsInjective | web/app/lib/csv.ts:21-23 | two lists share a row text only if they are equal, or are the empty list and the list of one empty cell |
| Pagination.DesktopTokens | web/lib/pagination.ts:57-76 | the tokens start at 1, end at the last page, show the clamped page, and with each ellipsis replaced by its gap give exactly 1..total; no empty gap, at most two ellipses; beyond seven pages exactly the ends and the window around the page are shown |
| Pagination.CompactTokens | web/lib/pagination.ts:46-55 | all pages, or the clamped page and its neighbours |
| Pagination.WithGaps | web/lib/pagination.ts:66-75 | the loop shows exactly the given pages and puts an ellipsis exactly where two of them are not neighbours |
| Pagination.VisiblePages | web/lib/pagination.ts:61-64 | the sorted shown pages: the two ends and the window around the page |
| Pagination.GapsAreAtTheEnds | web/lib/pagination.ts:61-70 | a gap can stand only after the first or before the last shown page |
| Pagination.WindowsTile | web/lib/pagination.ts:95-97 | every item is on exactly one page between 1 and the page count, and the last page is not superfluous |
| KeyedRows.CollectMerges | worker/app/jobs/copilot_usage_sync.py:338-351 | one row per key in first-seen order, each the merge of its key's rows in their order |
| KeyedRows.FirstSeenIsAll | worker/app/jobs/copilot_usage_sync.py:338-351 | the keys of the collection are exactly those of the rows |
| KeyedRows.FirstSeenIsInOrder | worker/app/jobs/copilot_usage_sync.py:338-351 | wherever a key occurs, every key listed before it has been seen |
| KeyedRows.CollectIsIdempotent | worker/app/jobs/copilot_usage_sync.py:338-351 | collecting twice is collecting once |
| KeyedRows.CollectInto | worker/app/jobs/copilot_usage_sync.py:338-351 | the dictionary loop computes that collection |
| UsageReports.MergeIsJoin | worker/app/jobs/copilot_usage_sync.py:354-375 | a merge takes the later dates, the longer period, the OR of activity and the True-over-False-over-unknown join of enablement, and its score is at least both scores |
| UsageReports.BelowIffOutscored | worker/app/jobs/copilot_usage_sync.py:378-386 | a row scores higher exactly when the first of activity, last date, refresh date, period and number of identity texts in which the two differ is greater |
| UsageReports.MergeKeepsText | worker/app/jobs/copilot_usage_sync.py:354-359 | a merge takes each text of the row that scores higher, the first if neither does, and the other's identity text where that one is blank |
| UsageReports.MergedIsJoin | worker/app/jobs/copilot_usage_sync.py:338-375 | the row kept for a key is the join of all rows of that key |
| UsageReports.MergedScoresHighest | worker/app/jobs/copilot_usage_sync.py:378-386 | it scores at least as high as every row it absorbed |
| UsageReports.MergedKeepsText | worker/app/jobs/copilot_usage_sync.py:354-359 | each identity text of the kept row is one of its key's rows' own, and blank only if all of theirs are |
| UsageReports.FactsIgnoreOrder | worker/app/jobs/copilot_usage_sync.py:338-375 | dates, period, activity and enablement do not depend on the input order |
| UsageReports.DedupeIsIdempotent | worker/app/jobs/copilot_usage_sync.py:338-351 | deduplicating a deduplicated list changes nothing |
| UsageReports.DedupeUserDetailRows | worker/app/jobs/copilot_usage_sync.py:338-351 | the loop returns that collection |
| UsageReports.KeepLongestPeriod | worker/app/jobs/copilot_usage_sync.py:301-306 | one trend row per date, so no batch repeats a conflict key: the last among those of the longest period |
| UsageReports.MergedIsLastLongest | worker/app/jobs/copilot_usage_sync.py:301-306 | the fold keeps the last row of the longest period |
| UsageAggregates.HitsIff | worker/app/jobs/copilot_usage_sync.py:622-650 | a prompt counts for a key if and only if it is a user prompt, dated within the hour that begins at the key's bucket, of the key's user, and agrees in the five texts |
| UsageAggregates.PromptsAreCounted | worker/app/jobs/copilot_usage_sync.py:622-650 | the count of a key is the number of such prompts in the list |
| UsageAggregates.UsageAggregator.CountPrompts | worker/app/jobs/copilot_usage_sync.py:622-666 | the first loop counts each key's dated prompts and collects exactly its request and session ids; the sum over the map grows by the returned count |
| UsageAggregates.UsageAggregator.SettleCounts | worker/app/jobs/copilot_usage_sync.py:668-678 | the second loop makes each request count the greater of the stored one and the number of ids, the prompt count where both are missing, and each session count likewise with one; it changes no prompt count |
| UsageAggregates.UsageAggregator.AggregateUserPrompts | worker/app/jobs/copilot_usage_sync.py:617-679 | for any sequence of users, repeated ones included: a new row counts the dated prompts of its key, the distinct request ids among them, else the prompts, and the distinct session ids, else one; an old row gains the prompts and the greater number of ids; the sum of prompt counts grows by exactly the dated prompts, and 1 <= requests <= prompts and 1 <= sessions <= prompts |
| UsageAggregates.AfterOk | worker/app/jobs/copilot_usage_sync.py:668-678 | a settled row keeps 1 <= request_count <= prompt_count and 1 <= session_count <= prompt_count |
| UsageAggregates.OthersUntouched | worker/app/jobs/copilot_usage_sync.py:668-678 | a call leaves another user's row exactly as it was |
| UsageAggregates.ExportedIsDeleted | worker/app/jobs/copilot_usage_sync.py:593-597 | a prompt within the source's time filter falls into an hour bucket the window deletes |
| UsageAggregates.FetchedIffNoEdge | worker/app/jobs/copilot_usage_sync.py:593-607 | of an exported user's prompts of a deleted bucket exactly those in the first hour up to the whole second of the window's start, or from the whole second of its end on, are not exported again |
| UsageAggregates.ExportedPrompts | worker/app/jobs/copilot_usage_sync.py:104-117 | in either mode a key is exported, once for every time its user is listed and answered, the prompts of the user that the export shows |
| UsageAggregates.ExportedIds | worker/app/jobs/copilot_usage_sync.py:104-117 | and its request and session counts are those of the distinct ids of the prompts shown, however often they are exported |
| UsageAggregates.WindowPrompts | worker/app/jobs/copilot_usage_sync.py:593-614 | a window exports, of a key whose bucket it deletes, the prompts there are less those at an edge, once for every time its user is listed and answered, so none of a user who was not |
| UsageAggregates.PromptsDroppedByWindow | worker/app/jobs/copilot_usage_sync.py:104-117 | a deleted bucket's key is exported fewer prompts than there are if and only if its user was not listed or not answered and has some, or was answered once and one is at an edge, or was answered more often and the repetition does not make up for the edges |
| UsageAggregates.EveryWindowHasAnEdge | worker/app/jobs/copilot_usage_sync.py:593-607 | no window is without an edge, on the hour or not |
| UsageAggregates.SyncWindow | worker/app/jobs/copilot_usage_sync.py:96-125 | after a windowed sync every bucket in the window, whosever it is, has a row exactly if its user was listed and answered and has prompts of the key that are not at an edge; the row counts those, once for every answer, and their distinct ids once; other buckets are untouched, and an export that raises leaves the whole table alone |
| UsageAggregates.SyncAllTime | worker/app/jobs/copilot_usage_sync.py:693-701 | after a sync of all time the rows of every listed user hold the prompts there are, once for every answered export, and their distinct ids once, so a listed user whose export was skipped has lost the whole history; other users' rows are untouched |
| UsageAggregates.AggregateTable.Replace | worker/app/jobs/copilot_usage_sync.py:682-757 | the table afterwards is the old rows out of scope plus exactly the new rows; on an error it is unchanged |
| UsageAggregates.SyncInteractions | worker/app/jobs/copilot_usage_sync.py:96-125 | a key has a new row exactly if dated prompts were exported for it; the row lies in scope and has their number, and the request and session counts; the table is the old rows out of scope plus the new rows, without overlap |
| CanonicalJsonProofs.StringReadsBack | worker/app/license.py:70-71 | an escaped string reads back by RFC 8259 section 7 |
| CanonicalJsonProofs.IntReadsBack | worker/app/license.py:70-71 | a printed integer reads back |
| CanonicalJsonProofs.ValueReadsBack | worker/app/license.py:70-71 | a reader of RFC 8259 gives back any printed value, whatever follows it |
| CanonicalForm.CanonicalRoundTrip | worker/app/license.py:62-71 | reading the canonical text gives the key-sorted value, and printing that gives the same text |
| CanonicalForm.SortIsIdempotent | worker/app/license.py:62-67 | sorting a sorted value changes nothing |
| CanonicalForm.CanonicalIffSame | worker/app/license.py:62-71 | two values share a canonical text if and only if they are equal up to the order of keys |
| CanonicalForm.CanonicalIffPrinted | worker/app/license.py:236-240 | the check against the canonical text accepts exactly the texts the printer produces |
| CanonicalForm.PrintHasNoControls | worker/app/license.py:70-71 | a canonical text has no line break, whatever strings it holds |
| CanonicalText.LessIff | worker/app/license.py:62-67 | keys are ordered by the code points at the first place where they differ, a shorter one before those it begins |
| CanonicalText.EscapedIffNeeded | worker/app/license.py:70-71 | only quotes, backslashes and control characters are escaped, seven with one character each and the others with four lower-case digits |
| CanonicalText.NumberIsShortest | worker/app/license.py:70-71 | a number has a sign exactly when it is negative, and no leading zero |
| CanonicalText.PrintKeepsSpaces | worker/app/license.py:70-71 | a printed value has exactly the spaces of its strings and keys: none stands between tokens and none is escaped |
| LicenseArtifact.SplitIffComposed | worker/app/license.py:223-234 | splitting accepts exactly a payload, one delimiter and a signature without white space, possibly with white space around it, and returns the two parts |
| LicenseArtifact.JoinedSplits | worker/app/license.py:223-234 | a canonical payload, the delimiter and a signature come apart again, unless the signature is the delimiter's own mark on a line of its own |
| LicenseArtifact.ArtifactSplits | worker/app/license.py:219-234 | likewise for a stored artifact with either kind of line end |
| LicenseInspection.AcceptedIffSigned | worker/app/license.py:219-257 | an artifact is accepted if and only if it is the canonical text of a value that parses to the payload, with a signature that verifies for that text |
| LicenseInspection.IssuedIsAccepted | worker/app/license.py:219-257 | what an issuer writes is accepted when its signature verifies |
| LicenseInspection.ParseSorted | worker/app/license.py:180-202 | the payload does not depend on the order of keys |
| LicenseInspection.ParsesIffAcceptable | worker/app/license.py:161-202 | a value parses if and only if its version is 1 or true, its three names are not blank, its times read, and its known features are booleans; and the payload says what the fields do, times to the millisecond |
| LicenseInspection.DerivedFeatures | worker/app/license.py:166-177 | a feature is on exactly when the payload maps its name to true |
| LicenseInspection.SummaryShows | worker/app/license.py:260-330 | the summary shows the payload of whatever is signed and acceptable, and the first thing wrong with it: no tenant configured, another tenant, expired |
| LicenseInspection.ActiveIffLicensed | worker/app/license.py:260-330 | an artifact is active if and only if it is a signed canonical payload for this tenant whose expiry is absent or not past, and expired if and only if it is one whose expiry is past |
| LicenseInspection.AllowedIffEntitled | worker/app/license.py:260-330 | a feature that needs a licence is allowed if and only if such an unexpired payload grants it; any other is refused only by such a payload that does not grant it |
| LicenseCache.StepKeepsInv | worker/app/license.py:339-424 | every step of every thread, and every upload and activation, keeps the cache equal to a recomputation of its key at some earlier time |
| LicenseCache.AnswersAreBoundedlyStale | worker/app/license.py:339-424 | an answer is what recomputing its key gave less than the entry's lifetime before the read, differs from recomputing now only for an active licence that has expired since, and an active answer read at t is for a licence that expires later than t minus the lifetime |
| LicenseCache.AnsweredFromCacheIff | worker/app/license.py:381-385 | a read is answered from the cache if and only if an entry for its key has not expired |
| LicenseCache.EntryExpiresAfterLook | worker/app/license.py:378-424 | over every run an entry expires the setting's lifetime, at least a second, after the read that stored it had looked into the cache |
| LicenseCache.LifetimeIsTtl | worker/app/license.py:418-423 | with one setting throughout the lifetime is max(1, ttl) seconds |
| LicenseCache.StaleIffExpired | worker/app/license.py:303-317 | nothing but the clock can make an answer stale |
| LicenseCache.AnswerIsForFetchedRow | worker/app/license.py:345-376 | an answer is for the row that was active when its read fetched it |
| LicenseCache.AnswerSaysWhatWasActive | worker/app/license.py:339-424 | over every run an answer says what the artifact active at its fetch licenses, at a time less than the lifetime before the read: it is missing if and only if no row, or a row without artifact, was active, and it allows a feature that needs a licence if and only if the artifact's text entitles to it at that time |
| LicenseCache.SummaryCache.GetCurrentLicense | worker/app/license.py:339-424 | an uninterrupted call leaves the cache and the answer that the machine's steps leave, and the answer says what the active artifact licenses at the time it was computed |
| DelegatedAuthTheorems.StepKeepsInv | web/app/lib/copilot-quarantine.ts:160-224 | every stretch of code keeps: states and cached tokens carry stamps issued for their identity, and a save stamps one cached token at most |
| DelegatedAuthTheorems.ServedTokenIsCurrent | web/app/lib/copilot-quarantine.ts:169-196 | a token is served only for the identity and scopes it was cached under, with the current stamp, at most a day old, and with more than a minute left unless its recorded expiry is zero |
| DelegatedAuthWitnesses.ZeroExpiryIsServed | web/app/lib/copilot-quarantine.ts:185-188 | a token with a recorded expiry of zero is served after that time |
| DelegatedAuthTheorems.OneLiveToken | web/app/lib/copilot-quarantine.ts:180-183 | at most one cached token of an identity is live |
| DelegatedAuthTheorems.MintingStales | web/app/lib/copilot-quarantine.ts:314-327 | minting for one scope set makes every other cached token of the identity stale |
| DelegatedAuthTheorems.StateAppearsIffSaved | web/app/lib/delegated-auth-store.ts:46-74 | an identity's state appears exactly when a sign-in or a refresh in flight saves it, stamped with that moment |
| DelegatedAuthTheorems.SignedOutUntilSaved | web/app/lib/delegated-auth-store.ts:85-91 | after a sign-out there is no state, and no token is served, until one is saved |
| DelegatedAuthTheorems.NoTokenSurvivesSignOut | web/app/lib/copilot-quarantine.ts:180-183 | no token cached before a sign-out is served after it |
| DelegatedAuthTheorems.ServedRoleIsCurrent | web/app/lib/copilot-quarantine.ts:428-445 | a role is served only within its time to live and under the identity's current stamp, a stamped role only to the identity it was looked up for, and a role is served to an identity without a state exactly when it has no stamp |
| DelegatedAuthTheorems.StaysStamped | web/app/lib/copilot-quarantine.ts:447-459 | a role is cached under a key without a stamp exactly when its identity has no live state at the moment it is written |
| DelegatedAuthTheorems.RolesNeedState | web/app/lib/copilot-quarantine.ts:428-459 | when no identity under the same cache key loses its state during a role check, no role is served to one without a state |
| DelegatedAuthTheorems.NoRoleSurvivesSignOut | web/app/lib/copilot-quarantine.ts:440-443 | no stamped role from before a sign-out is served after it |
| DelegatedAuthWitnesses.RoleServedAfterSignOut | web/app/lib/copilot-quarantine.ts:440-458 | a sign-out while the directory is asked: the signed-out identity is granted the roles from the cache |
| DelegatedAuthHistory.SameIdentityIff | web/app/lib/delegated-auth-store.ts:25-31 | two sessions are one identity exactly when their object ids agree, or neither has one and their names agree |
| DelegatedAuthHistory.SameRoleKeyIff | web/app/lib/copilot-quarantine.ts:417-420 | the role cache's key tells neither an object id from a name nor either from none |
| DelegatedAuthHistory.StoredTokenIsLastBrought | web/app/lib/delegated-auth-store.ts:46-74 | over every run the refresh token in an identity's state is the last one that a sign-in or a refresh has brought for it since the state was absent: a save that brings one replaces the old, one that brings none keeps it |
| DelegatedAuthHistory.MintsWithLastBrought | web/app/lib/copilot-quarantine.ts:307-314 | a refresh is begun with that token |
| DelegatedAuthHistory.AskIsServedIff | web/app/lib/copilot-quarantine.ts:295-314 | a request is served the cached token if and only if that may be served, else refreshed if and only if the state has a refresh token, and else ends |
| DelegatedAuthHistory.CachedTokenWasGiven | web/app/lib/copilot-quarantine.ts:314-327 | a cached token is the one a refresh for its identity and scopes gave at the moment of its stamp, with the expiry in it, or an hour |
| DelegatedAuthHistory.RoleWasAnswered | web/app/lib/copilot-quarantine.ts:447-459 | a cached or served role is the directory's answer at the moment it was cached, to a check by the session it was written for |
| DelegatedAuthHistory.RoleIsServedIff | web/app/lib/copilot-quarantine.ts:428-445 | a role check is granted if and only if the entry is within its time to live and has the identity's current stamp, and else the entry is dropped |
| DelegatedAuthHistory.StateGoesOnly | web/app/lib/delegated-auth-store.ts:33-40 | a state goes only by a sign-out of its identity, or because it is older than a day |
| DelegatedAuthHistory.FailureDropsRole | web/app/lib/copilot-quarantine.ts:447-452 | a request that fails for a role check drops the cached role of its session and no other; one that fails otherwise leaves the roles alone |
| DelegatedAuthHistory.ConsentDropsToken | web/app/lib/copilot-quarantine.ts:307-330 | consent that is needed drops the cached token of the identity and scopes and no other; a refresh that fails drops none |
| DelegatedAuthHistory.TokenGoesOnlyDiscarded | web/app/lib/copilot-quarantine.ts:169-196 | a cached token goes only by a request for its identity and scopes that it may not be served to, or that needs consent |
| DelegatedAuthStore.AuthStore.PruneExpiredStates | web/app/lib/delegated-auth-store.ts:33-40 | the loop deletes exactly the states older than a day |
| DelegatedAuthStore.AuthStore.SaveDelegatedAuthState | web/app/lib/delegated-auth-store.ts:46-74 | a save stamps the state; a refresh token that is given replaces the old one, and without one the old one is kept if its state is not older than a day; other states stay unless they are |
| DelegatedAuthStore.AuthStore.GetDelegatedAuthState | web/app/lib/delegated-auth-store.ts:76-83 | a lookup prunes and finds the identity's state |
| DelegatedAuthStore.AuthStore.ClearDelegatedAuthState | web/app/lib/delegated-auth-store.ts:85-91 | clearing removes that identity's state alone |
| DelegatedAuthStore.Caches.ReadDelegatedTokenCache | web/app/lib/copilot-quarantine.ts:169-196 | reading serves a current entry and deletes one found wanting |
| DelegatedAuthStore.Caches.WriteDelegatedTokenCache | web/app/lib/copilot-quarantine.ts:198-224 | writing stamps the entry, an empty token deletes it |
| DelegatedAuthStore.Caches.BeginAccessToken | web/app/lib/copilot-quarantine.ts:295-312 | the stretch up to the first await is one step of the machine |
| DelegatedAuthStore.Caches.FinishRefresh | web/app/lib/copilot-quarantine.ts:314-327 | the stretch after a refresh saves the refresh token it answered with, else the one it was made with, and then caches the token for its expiry, or an hour, under the new stamp |
| DelegatedAuthStore.Caches.CheckRoleEntry | web/app/lib/copilot-quarantine.ts:432-444 | the stretch after the await serves or deletes the entry read before it |
| DelegatedAuthStore.Caches.WriteRoleCache | web/app/lib/copilot-quarantine.ts:447-459 | an error deletes, a result is stamped |
| MvRefresh.StepKeepsMarks | worker/app/jobs/mv_refresh.py:127-151 | no step that is quiet for a view leaves it stale and neither queued nor owed an enqueue; quiet: not enqueued or changed by a transaction with triggers between its refresh and its deletion, not deleted while such a transaction is open, no enqueue dropped |
| MvRefresh.NoMarkIsLost | worker/app/jobs/mv_refresh.py:127-151 | over every run that is quiet for a view, it is queued, or a job still owes its enqueue, whenever it is stale, whatever fails in refresh runs, wherever one dies, and whatever happens to other views |
| MvRefresh.CoveredStep | db/init/001_schema.sql:771-787 | a step leaves a stale view without a mark exactly when it restores nothing and the mark was missing already or the step loses it |
| MvRefresh.MarkLostIff | worker/app/jobs/mv_refresh.py:30-64 | over every run a view is stale with neither a queue row nor an enqueue owed if and only if, and not restored since, it was deleted while stale, or the last enqueue owed for it was dropped while it was not queued, or a transaction committed whose trigger had found a queue row that is gone |
| MvRefresh.StaleIffChangedSince | worker/app/jobs/mv_refresh.py:134-144 | a refreshed view is stale again exactly when a table of it was changed since and it has not been refreshed since |
| MvRefresh.EnqueueBetweenIsLost | worker/app/jobs/mv_refresh.py:45-50 | DO NOTHING loses a mark set between refresh and deletion |
| MvRefresh.DroppedEnqueueIsLost | worker/app/jobs/graph_ingest.py:992-999 | a swallowed error of the enqueue leaves a changed view without a mark |
| MvRefresh.WriteAcrossDeletionIsLost | db/init/001_schema.sql:771-787 | a trigger that finds the row and inserts none, in a transaction that commits after the view's refresh and deletion, leaves a changed view without a mark |
| MvRefresh.AttemptsAreAccountedFor | worker/app/jobs/mv_refresh.py:127-151 | between two views attempted = refreshed + failed |
| MvRefreshHistory.SelectedIff | worker/app/jobs/mv_refresh.py:85-98 | the query selects queued views that some view depends on, dirty longest first and then by name, and leaves one out only if `limit` others precede it |
| MvRefreshHistory.RowCountsAttempts | worker/app/jobs/mv_refresh.py:127-133 | while a view stays in the queue its row keeps its time and counts the attempts made since |
| MvRefreshHistory.WriteStep | db/init/001_schema.sql:771-787 | a transaction stays open until it is committed or aborted and gathers what its own statements change and insert; others leave it alone |
| MvRefreshHistory.OwedByStep | worker/app/jobs/mv_refresh.py:30-64 | a job owes exactly what it has changed until it enqueues, or its enqueue is dropped |
| MvRefreshHistory.RunsWorkOffSelections | worker/app/jobs/mv_refresh.py:82-151 | over every run a refresh run works off, in their order, the views the query selected when it started; each it is done with it has refreshed or failed |
| MvRefreshRun.RefreshQueue.RunMvRefresh | worker/app/jobs/mv_refresh.py:82-171 | a run that returns attempted every view it selected, each refreshed or failed; refreshed views leave the queue, failed ones gain an attempt; an attempts update that raises ends the run |
| MvRefreshRun.OneRun | worker/app/jobs/mv_refresh.py:89-98 | one run takes `limit` dependent views off the queue, or all that are left, and no others |
| MvRefreshRun.SelectionExists | worker/app/jobs/mv_refresh.py:89-98 | there is always such a selection, in the order of the query |
| MvRefreshRun.DrainedIff | worker/app/jobs/mv_refresh.py:82-171 | with no new marks and no failures the n dependent views are drained after ceil(n / limit) runs and not before |
| MvRefreshRun.Limit | worker/app/jobs/mv_refresh.py:26-27 | a limit from 1 to 200 is kept, others are moved to the nearer end |

## Left out

- Scheduler: the tables are values of a step machine rather than objects, since steps of many connections interleave; a schedule or run row without a job is not modelled.
- Scheduler time: the worker and the database share one clock, and a connection lives exactly as long as the thread that uses it.
- Scheduler cron: the next time of a cron expression is any time strictly after its base, or an error.
- Scheduler edits: a job may be enabled or disabled at any time, and the wait of a run-now insert for a lock on the job row is not modelled, so more interleavings are covered than can occur.
- SchedulerLoop.Cluster.Others: what other connections do between two statements is only known by its contract; its own body does nothing.
- SchedulerLoop.Cluster.RunDueSchedule: a commit that raises has not committed; a commit whose answer alone is lost is one after which the next statement raises.
- SchedulerLoop.Cluster.DisableInvalidSchedule: a wait for a locked schedule row that does not end is treated as an error that is swallowed.
- LicenseArtifact: verification of a signature (with loading the key and decoding) and reading a timestamp are parameters; the texts of error messages are constructors.
- CanonicalJson: numbers with a fraction or an exponent, NaN and Infinity are refused by the model's reader; a lone surrogate escape is refused at once, where the code refuses the artifact later; Python's limit on digits and nesting is not modelled.
- LicenseCache: the summary emulated for local Docker testing, artifact metadata in the summary, and the text form of the cache key (its three parts are kept apart).
- License (web copy): the web service sorts keys by locale and has other fallback defaults; only the worker's code is modelled.
- RequestTiming: the clock is an integer that never goes back, and each end is called once.
- FeatureFlagsStream: reconnects and the first connection of the listener.
- RuntimeConfigOverlap: what a lookup does after the vault's answer is one step; the worker's threads could also switch between its two assignments.
- RuntimeConfig: obtaining the vault token, and the languages' own tests for a blank value, which are a parameter.
- ConditionalAccess: calls are atomic, a refused call has no effect, display names are compared exactly, and which of several policies Graph lists first is open.
- Csv.EscapeCsvCell: cells are strings; how other values become strings is not modelled. Export lines end with a line feed, as the callers write them.
- UsageReports and UsageAggregates: parsing of report fields and of timestamps; hours are taken in UTC.
- UsageAggregates.SyncWindow: which users are listed, and how each export ends, is a parameter, and so is what interactions there are, which stays the same during the sync.
- UsageAggregates.SyncInteractions: the export honours its time filter.
- DelegatedAuth: claims and scope lists arrive normalised, a cache key's two parts are kept apart, the clock is strictly increasing from one stretch of code to the next, and the environment cache is not modelled.
- MvRefresh: views are numbered in the order of their names, a queue row written by a transaction is dated at its commit, a job's enqueue covers what it has changed, and a name the pattern refuses is a failed refresh.
- Pagination: links and the summary text.
- HTTP routes, sessions, cookies, audit rows, logging, charts, SQL reports, telemetry roll-ups and deployment scripts: plumbing, or easier members.
