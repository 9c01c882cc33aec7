# PE Community: the self-updater and five smaller algorithms, in Dafny

The main part models the host updater of PE Community: how an update run goes through its phases, what it writes
and in which order, what a crash at any await leaves behind, and what the restart makes of it. Around it stand
models of the replay nonce store that guards the updater's socket, and of four pieces of the API and the site whose
correctness is not visible from their bodies.

`dafny verify dfyconfig.toml` checks the whole project.

## What is modelled

**The update protocol.** `UpdateDomain` has the records, the phase table and the release policy of `domain.ts` and
`release-verifier.ts`; `Versions` and `EnvFile` the version texts and the line of `.env` that names one.
`UpdateProtocol` is `execute`, its catch block and `recoverInterruptedRun` as a step machine: a step ends at an await
and holds one durable effect (a record saved, an event appended, `.env` written, the lock removed) or one external
operation with the synchronous code around it. Every external operation may succeed or break, and the process may die
at every await. `UpdateWorld` is the whole process: `install` calls interleaved at their awaits, cancellations of any
run, pruning, crashes, restarts and `initialize`. Ghost histories record the phases of each run, the operations issued
for it with the text of `.env` at that moment, the phases in which a cancellation was accepted, and the runs whose
recovery was itself cut off.

`UpdateInvariant`, `UpdateExecute`, `UpdateExecuteAll`, `UpdateRecovery` and `UpdateSafety` prove the inductive
invariants, first of one run, then of the world. `UpdateTheorems` reads the guarantees off them for every sequence of
events from every first start, `UpdateKeys` says what can make the findings of an `install` call untrue, `UpdatePlan`
describes traces of operations as a small language, and `UpdateCourse`, `UpdateEnds`, `UpdateOutcomes` and
`UpdateLimits` say what runs, recoveries and restarts come to.

`UpdaterAgent` has `execute` as a class that changes its fields in place. What answers at each await (outcome, time,
and whether another request cancels the run) is given from outside, and the contract of every method says that the
fields are those of the step machine begun with the same call, after the same answers; the theorems about the machine
are therefore theorems about the class. `RecoveryAgent` has `recoverInterruptedRun` in the same way, with its outcome
by phase, and `AgentStore` the store. `EventFeed` is the event log as a polling client sees it.

**The nonce store.** `NonceStore` is the class with its map, kept in insertion order, and its file; `NonceHistory`
relates it to the unbounded list of everything accepted. `StableSort` is the stable sort of `Array.prototype.sort`
(section 23.1.3.30 of ECMA-262).

**The rest.** `PeriodAnalytics` (time zone inversion, calendar buckets, sparkline) on top of `Calendar` (section
21.4.1 of ECMA-262), `KanbanOrder`, `NotificationTemplates`, `TaskBoardOverview`.

## Where the code gives less than it seems to promise

Each of these is proved with the exact condition under which it happens.

- Two calls with one idempotency key can both create a run, because `install` looks the key up before it takes the
  lock and never again (`UpdateOutcomes.SecondRunForOneKey`). A key found to be unknown becomes known exactly when a
  run with that key is saved for the first time and stays stored (`UpdateKeys.KeyFoundExactly`); if no two calls with
  one key are in flight together, no two stored runs have one key (`UpdateKeys.SerialCallsUnique`).
- A run can start from a version that `.env` no longer names, exactly when the last write of `.env` since the call
  read it wrote another one (`UpdateKeys.StaleReadExactly`).
- A recovery from ROLLING_BACK ends FAILED with the target version in `.env` exactly when the process died before the
  rollback had written the old text back (`UpdateLimits.RollbackRecoveryText`, reachable by
  `UpdateLimits.TargetLeftBehind`).
- A crash that hits the recovery before it saved an outcome leaves the run unfinished for ever, without a lock, and
  nothing else does (`UpdateTheorems.OrphansExactly`, `UpdateTheorems.OrphansStay`). Two crashes bring it about for
  any run (`UpdateOutcomes.OrphanReachable`).
- An event number is used twice exactly when the process died between an append and the save after it
  (`UpdateLimits.SequenceRepeatsExactly`), a moment that every run passes (`UpdateLimits.RepeatReachable`); a polling
  client misses the second event exactly when it already had the first (`EventFeed.RepeatedNumberExactly`).
- An accepted cancellation is honoured exactly when it arrives at one of five awaits and the check or command in
  progress there succeeds without a line of output; otherwise the run is stored over it
  (`UpdateLimits.CancellationHonouredExactly`), and the update may complete (`UpdateLimits.CancellationLost`).
- `deploy/updater/SECURITY.md:12` says that a nonce is accepted only once. It is accepted again exactly when its entry
  has left the window of 60 seconds, which takes a request with another timestamp, or when the full map gave the entry
  up (`NonceHistory.ReplayExactly`), which 4096 other requests within the window bring about
  (`NonceHistory.FloodedReplay`).
- A wall clock reading with milliseconds is never inverted exactly, because the observed reading leaves them out; the
  end of the previous period of `this_month` is off whenever the current time has some and
  `apps/api/src/period-analytics.ts:56` is taken (`PeriodAnalytics.MillisecondsNeverExact`).
- With non-empty ids free of commas the comparison of task boards is exact (`KanbanOrder.SameOrderExactly`); every
  other id makes two different boards compare equal (`KanbanOrder.UncleanConfused`).
- A user's overdue tally is exact unless a task of theirs that is not overdue shares its id with one that is
  (`TaskBoardOverview.OverdueTallyExactly`).
- The two template scanners agree exactly on texts all of whose placeholders are alphanumeric
  (`NotificationTemplates.ScannersAgreeExactly`).

## Model

| member | source | states |
|---|---|---|
| UpdateTheorems.PhaseBoundsVersion | apps/updater/src/updater.ts:113-296 | After any events, crashes and restarts included, and provided `.env` still named the version read when the lock was taken, the stored phase of the run that took the lock last bounds the version in `.env`: installed up to PREFLIGHT and when CANCELLED, target from DEPLOYING to COMPLETED, one of the two in between; FAILED means installed unless it was reached by recovery from ROLLING_BACK |
| UpdateTheorems.LockedBounds | apps/updater/src/updater.ts:113-202 | While a lock stands, also after a crash, it names the run that took it last, and the stored phase of that run bounds the whole text of `.env`: the text found up to PREFLIGHT and when CANCELLED, the one with the target from DEPLOYING to COMPLETED, one of the two in between; FAILED the text found or the one with the installed version, unless reached by recovery from ROLLING_BACK |
| UpdateTheorems.MutationsControlled | apps/updater/src/updater.ts:113-285 | Images, data and services are changed by `execute` only, never by a recovery; `pull` and `migrate deploy` at most once per run, `up` at most once with the target and once with the old text of `.env`; `migrate deploy` and `up` only after compatibility, backup, three digest matches and three attestations |
| UpdateTheorems.MutationsInPhase | apps/updater/src/updater.ts:141-158 | `pull` is in flight only in stored PULLING, `migrate deploy` in MIGRATING, `up` in DEPLOYING with the target text or in ROLLING_BACK with the old one |
| UpdateTheorems.RecordsSound | apps/updater/src/domain.ts:93-140 | Stored phase changes follow the table and strictly descend, at most ten phases; status equals phase, `completedAt` is set exactly in final phases; a COMPLETED run went through all nine phases of the main line; once a run was MIGRATING its record keeps provenance results exactly [manifest, api, web, worker] with the digests of its manifest snapshot |
| UpdateTheorems.NoTransitionThrows | apps/updater/src/updater.ts:113-296 | No transition asked for by `execute` or a recovery is refused by the table |
| UpdateTheorems.MaintenanceBeforeChanges | apps/updater/src/updater.ts:168-173 | The maintenance branch is entered only from PREFLIGHT, with MANUAL_ACTION_REQUIRED, MINIMUM_VERSION_UNMET, UPDATER_MAINTENANCE_REQUIRED or LEGACY_RELEASE_MANUAL_REQUIRED, and with `.env` untouched |
| UpdateTheorems.ForwardOnlyNeverRolledBack | apps/updater/src/updater.ts:174-192 | A run of a FORWARD_ONLY or MANUAL_RECOVERY release never enters ROLLING_BACK, and once DEPLOYING it ends COMPLETED or MANUAL_INTERVENTION_REQUIRED, crashes included |
| UpdateLimits.FailedDeployment | apps/updater/src/updater.ts:174-192 | When deployment or health check fails, ROLLING_BACK is stored next if the release is NO_MIGRATION or BACKWARD_COMPATIBLE; otherwise MANUAL_INTERVENTION_REQUIRED is, with the code thrown and rollback UNSAFE |
| UpdateTheorems.OnlyFittingReleases | apps/updater/src/updater.ts:204-211 | A run that ever was in BACKUP has the manifest of its own target, without manual action and with provenance required, whose minimum version is not above the installed one and whose minimum updater version is not above 1.4.0 |
| UpdateTheorems.CancelledRunsClean | apps/updater/src/updater.ts:104-111 | A CANCELLED run was cancelled in a phase that allows it, issued no migration and no deployment, and left `.env` character for character as it found it |
| UpdateTheorems.OneRunAtATime | apps/updater/src/updater.ts:64-96 | Among the runs whose recovery no crash cut off at most one is unfinished, and the lock or the running recovery names it |
| UpdateTheorems.OrphansExactly | apps/updater/src/store.ts:12-19 | A stored run is unfinished while neither the lock nor a recovery names it if and only if some crash hit its recovery before an outcome was stored |
| UpdateOutcomes.OrphanReachable | apps/updater/src/store.ts:12-19 | For every first `.env` and every call for a newer version there are events, with two crashes, that leave the call's run so |
| UpdateTheorems.OrphansStay | apps/updater/src/store.ts:12-19 | No event finishes, removes or takes up such a run |
| UpdateTheorems.IdleIsClean | apps/updater/src/updater.ts:45-96 | While requests are served and no run executes, there is no lock, and the unfinished runs are exactly those whose recovery a crash cut off |
| UpdateTheorems.OwnKeyReturned | apps/updater/src/updater.ts:64-90 | A stored run that `install` returns carries the caller's own idempotency key |
| UpdateTheorems.LookupExactly | apps/updater/src/updater.ts:67-87 | A lookup of a key under which a run is stored never goes on without one, and returns the stored run it finds; under an unknown key the call goes on |
| UpdateTheorems.CreationNeedsFreeLock | apps/updater/src/updater.ts:77-90 | A run comes into being only through an `install` call that finds the lock free, one new id at a time; it is a PENDING run with the key, the target and the installed version of that call, and nothing else is set in it |
| UpdateTheorems.OnlyUpgrades | apps/updater/src/updater.ts:69-70 | A call goes on to the lock if and only if `.env` names a version and the target is above it in numbers; otherwise it is refused with the code of the case |
| UpdateTheorems.TargetsNewer | apps/updater/src/updater.ts:64-90 | In every reachable world every run, and every call on its way to the lock, has a target above the version its call read |
| UpdateTheorems.RefusedStaysRefused | apps/updater/src/updater.ts:79-87 | A call that met the lock looks its key up again, at most ten times, and never creates a run |
| UpdateTheorems.RefusedAfterTen | apps/updater/src/updater.ts:79-87 | If no lookup finds its key, a call that met the lock is refused with UPDATE_IN_PROGRESS after exactly ten of them |
| UpdateKeys.StaleReadExactly | apps/updater/src/updater.ts:69-90 | The version a call read is the one `.env` names when the call takes the lock if and only if the last write of `.env` in between, if any, wrote it |
| UpdateKeys.EnvIsLastWritten | apps/updater/src/updater.ts:139-269 | `.env` holds the target, the text found at the lock, or the installed version, as the last step of a run, rollback or recovery that writes it put it there |
| UpdateKeys.KeyFoundExactly | apps/updater/src/updater.ts:67-90 | A key looked up as unknown is known after further events if and only if one of them was the first save of a run with that key that is still stored |
| UpdateKeys.SerialCallsUnique | apps/updater/src/updater.ts:64-96 | If no two calls with one key are ever in flight together, no two stored runs have one key |
| UpdateTheorems.PreparedBefore | apps/updater/src/updater.ts:119-158 | In a trace that follows the plan, whatever comes before a migration or deployment holds the compatibility check, the backup, and for each image the digest match and its attestation, all successful |
| UpdateSafety.ReachableOK | apps/updater/src/updater.ts:45-296 | The invariant of the whole updater holds after every sequence of events |
| UpdateSafety.StepOK | apps/updater/src/updater.ts:45-296 | Every event keeps it: a call's step, a cancellation, pruning, a step of a run or recovery, a crash, a restart |
| UpdateExecuteAll.TickKeeps | apps/updater/src/updater.ts:113-202 | The invariant of one run, relating files, memory, program position and trace, is kept by every await of `execute` and its catch block, whatever the environment answers |
| UpdateExecuteAll.CrashKeeps | apps/updater/src/updater.ts:113-202 | Wherever `execute` dies, its files are in a state from which the restart can finish the run |
| UpdateExecuteAll.CancelKeeps | apps/updater/src/updater.ts:104-111 | A cancellation between any two awaits keeps the invariant |
| UpdateExecute.PolicyKeeps | apps/updater/src/release-verifier.ts:70-92 | The release policy checked again for each image never throws there: the compatibility check in PREFLIGHT has already passed on the same manifest |
| UpdateRecovery.ResumeOK | apps/updater/src/updater.ts:213-285 | Whatever unfinished run a crash leaves, the recovery starts in one of the branches by phase; the last line is unreachable |
| UpdateRecovery.RecoverTick | apps/updater/src/updater.ts:213-296 | Every step of the recovery keeps its own invariant |
| UpdateRecovery.RecoverCrash | apps/updater/src/updater.ts:213-296 | A recovery that dies leaves a record as sound as any other |
| UpdatePlan.TraceShape | apps/updater/src/updater.ts:113-202 | A trace that follows the plan is: successful operations in the order of the update, then at most one broken one, the rollback, and the restart's look, each at its place |
| UpdatePlan.MutationsAreScripted | apps/updater/src/updater.ts:142-180 | A change is either entry 4, 11 or 13, with the target in `.env` and everything before it done, or the one `up` of the rollback with the old text, right after the deployment or its health check broke |
| UpdatePlan.MutationsAtMostOnce | apps/updater/src/updater.ts:142-180 | No change is issued twice, but for `up` with each of the two texts of `.env` |
| UpdateDomain.ChainDescends | apps/updater/src/domain.ts:93-140 | Along legal transitions the rank strictly falls, so a run has at most ten phases, repeats none and stops at a final one |
| UpdateDomain.TableExactly | apps/updater/src/domain.ts:93-116 | A move is allowed if and only if it goes one step along the main line, from a phase that is not final to FAILED, from one that is neither final nor PENDING to an operator, from PENDING, PREFLIGHT or PULLING to CANCELLED, or from DEPLOYING or HEALTHCHECK to ROLLING_BACK |
| UpdateDomain.MainLineOnly | apps/updater/src/domain.ts:93-116 | The only way to a phase of the main line is through all the phases before it |
| UpdateDomain.TimesKept | apps/updater/src/domain.ts:118-140 | Over any list of moves `startedAt` is the time of the move to PREFLIGHT, `completedAt` that of the last one if it ends the run, and nothing else changes but phase and status |
| UpdateDomain.CompatibilityCodes | apps/updater/src/updater.ts:204-211 | Which of five codes is thrown, or none: the first condition that fails, with versions compared as numbers |
| UpdateDomain.CompatibleExactly | apps/updater/src/updater.ts:204-211 | Nothing is thrown if and only if the release is the target, asks for no manual action, requires provenance, and is within both minimum versions |
| UpdateDomain.PolicyCodes | apps/updater/src/release-verifier.ts:35-43 | The three conditions checked again for each image and the code of the first that fails |
| UpdateCourse.CourseReaches | apps/updater/src/updater.ts:113-163 | If nothing fails, a run of an installable release reaches every await ahead of it |
| UpdateCourse.RunCompletes | apps/updater/src/updater.ts:113-163 | And it ends COMPLETED, with the lock gone and the target in `.env` |
| UpdateCourse.RecoveryEnds | apps/updater/src/updater.ts:213-296 | A recovery whose operations answer, well or badly, comes to its end |
| UpdateEnds.EveryRunEnds | apps/updater/src/updater.ts:91-202 | Whatever the operations answer, the lookup's maintenance and manifest codes included, and whatever finite output they print, a run that is not interrupted ends in a final phase with the lock released |
| UpdateOutcomes.InitializeEnds | apps/updater/src/updater.ts:45-49 | An uninterrupted `initialize` ends with no lock, and no run unfinished but those orphaned before |
| UpdateOutcomes.ActivityRuns | apps/updater/src/updater.ts:91-94 | A run or recovery proceeds in the world as its own machine does alone |
| UpdateOutcomes.SecondRunForOneKey | apps/updater/src/updater.ts:67-90 | Two interleaved calls with one key can both create a run, the second with an installed version that `.env` no longer names |
| UpdateLimits.RollbackRecoveryText | apps/updater/src/updater.ts:253-268 | After a crash in ROLLING_BACK and a healthy check, the run ends FAILED with the target text if the old one had not been restored yet, and with the old text otherwise |
| UpdateLimits.TargetLeftBehind | apps/updater/src/updater.ts:174-178 | The first case is reachable for every release that allows rollback |
| UpdateLimits.SequenceRepeatsExactly | apps/updater/src/updater.ts:444-449 | After a crash and its recovery the event numbers are 1, 2, ..., n if and only if the crash did not fall between an append and its save; otherwise the last number occurs twice |
| UpdateLimits.RepeatReachable | apps/updater/src/updater.ts:444-449 | If the process dies between the first append of any run and its save, the log ends as two events with number 1 |
| UpdateLimits.CancellationHonouredExactly | apps/updater/src/updater.ts:104-111 | A run cancelled at some await and left to finish under any answers ends CANCELLED if and only if it stood before a look at the record, or before the compatibility check, the host checks or the pull, and these succeed without output |
| UpdateLimits.CancellationLost | apps/updater/src/updater.ts:104-133 | For every installable release there is a run that accepts a cancellation and completes the update |
| UpdateLimits.CancellationHonoured | apps/updater/src/updater.ts:451-459 | A cancellation that is in the record when `execute` looks is honoured: no further operation, the old text of `.env`, CANCELLED, the lock gone |
| UpdaterAgent.Agent.Execute | apps/updater/src/updater.ts:113-202 | `execute` on the object's own fields: under any answers and cancellations it stands at its end where the machine stands, with a finished record, `.env` within the bounds of its phase, events 1 to n, commands that follow the plan, and no lock |
| UpdaterAgent.Agent.Try | apps/updater/src/updater.ts:118-163 | The try block leads the fields to the machine's state at the release of the lock, COMPLETED, or at the catch block for the code thrown |
| UpdaterAgent.Agent.Handle | apps/updater/src/updater.ts:164-201 | The catch block leads to the release of the lock with what is demanded stored: MANUAL_INTERVENTION_REQUIRED for the four maintenance codes; after the deployment a rollback, done or failed, if the release is NO_MIGRATION or BACKWARD_COMPATIBLE and the old text is at hand, else MANUAL_INTERVENTION_REQUIRED; otherwise FAILED with the code |
| UpdaterAgent.Agent.RollBack | apps/updater/src/updater.ts:176-190 | The old text is put back, the old release started and, if that succeeded, checked; FAILED when both succeeded, otherwise MANUAL_INTERVENTION_REQUIRED |
| UpdaterAgent.Agent.CancelIfRequested | apps/updater/src/updater.ts:451-459 | Throws if and only if the stored record asks for it, then with CANCELLED stored and logged and, after the pull, the old text of `.env` |
| UpdaterAgent.Agent.VerifyImages | apps/updater/src/updater.ts:331-351 | The loop over the three images: three saved results and three log lines, or the throw of the first failure |
| UpdaterAgent.Agent.ComposeWithLogs | apps/updater/src/updater.ts:405-435 | One event per chunk of output, then one entry in the trace, with a throw if and only if the command broke |
| UpdaterAgent.Agent.Enter | apps/updater/src/updater.ts:437-442 | `phase`: the transition, its save and one event of the new phase |
| UpdaterAgent.Agent.Log | apps/updater/src/updater.ts:444-449 | One event with the next number and the current phase is appended, then the record saved |
| UpdaterAgent.Agent.Validate | apps/updater/src/updater.ts:204-211 | The compatibility check throws exactly the code of the first of its five conditions that fails, versions compared as numbers, and nothing if all hold |
| UpdaterAgent.Agent.WriteTarget | apps/updater/src/updater.ts:139-140 | The old text is kept and the target written over it |
| UpdaterAgent.Agent.FetchTarget | apps/updater/src/updater.ts:120-130 | The release found is kept, recorded with its evidence and with rollback AVAILABLE if and only if it is NO_MIGRATION or BACKWARD_COMPATIBLE, saved and logged; otherwise the lookup's code is thrown |
| UpdaterAgent.PlayedOK | apps/updater/src/updater.ts:113-202 | Whatever answers the machine has had from the start of a run, the state it has come to satisfies the invariant |
| RecoveryAgent.Recoverer.RecoverInterruptedRun | apps/updater/src/updater.ts:213-285 | Ends the run as its stored phase demands, with one event; `.env` is rewritten only for the phases before the migration, and at most one command is issued, which changes nothing. The fields follow the steps of the machine throughout |
| RecoveryAgent.Recoverer.Finish | apps/updater/src/updater.ts:287-296 | The recovery's outcome: the run is stored in its final phase with code and rollback status, and exactly one event, with the next number, is added |
| AgentStore.Store.FindByIdempotencyKey | apps/updater/src/store.ts:48-57 | Finds a record with the key if and only if there is one |
| AgentStore.Store.AppendEvent | apps/updater/src/store.ts:59-65 | Wherever a reader of the log stands, it is given the new event after all the others, if its number is larger |
| AgentStore.Store.Events | apps/updater/src/store.ts:67-76 | The logged events above the given number, in order; nothing for a malformed id |
| AgentStore.Store.TakeInterruptedRun | apps/updater/src/store.ts:12-19 | The lock is gone afterwards, and the run it named is returned if and only if it is stored and unfinished |
| AgentStore.Store.PruneRuns | apps/updater/src/store.ts:78-94 | Of the finished runs exactly those beyond the newest are removed, each with its log |
| AgentStore.PruneSpares | apps/updater/src/store.ts:78-94 | No unfinished run is removed, and a finished one only when as many as are to be kept, all no older, stay |
| AgentStore.DefaultSpares | apps/updater/src/store.ts:78-94 | Without a number given, a removed run leaves 200 no older ones |
| EventFeed.ComposeOutput | apps/updater/src/updater.ts:405-435 | A command logs its first 1000 non-empty chunks in order, and one warning if and only if there were more |
| EventFeed.ClientFollows | apps/updater/src/updater.ts:98-102 | A client polling with its last number, interleaved with appends in any way, has at every moment a prefix of the log and after each poll all of it |
| EventFeed.RepeatedNumberExactly | apps/updater/src/updater.ts:98-102 | With a number used twice, the client receives the second event if and only if it had not received the first |
| EnvFile.InstalledAfterWrite | apps/updater/src/updater.ts:382-386 | The version read after a write is the one written |
| EnvFile.InstalledReads | apps/updater/src/updater.ts:382-386 | A version is read from its line bare, in single quotes and in double quotes, behind any lines without a readable value and with anything behind a quote, or a blank, a line end or `#` behind a bare one |
| EnvFile.NothingBefore | apps/updater/src/updater.ts:382-386 | Lines without a readable value, version lines among them, are skipped for the next one |
| EnvFile.VersionLineExactly | apps/updater/src/updater.ts:382-386 | A version line is the key, character for character, at the start of the text or behind one of the four line terminators |
| EnvFile.ValueExactly | apps/updater/src/updater.ts:382-386 | Behind the key a value is missing if and only if a blank, `#` or the end follows |
| EnvFile.QuotedValue | apps/updater/src/updater.ts:382-386 | A value in quotes of either kind goes up to the next such quote |
| EnvFile.BareValue | apps/updater/src/updater.ts:382-386 | Any other goes up to the next blank or `#`, also where a quote is empty or never closed |
| EnvFile.WriteKeepsTheRest | apps/updater/src/updater.ts:488-493 | A write replaces the rest of the first version line and no other character |
| EnvFile.WriteOverrides | apps/updater/src/updater.ts:488-493 | A second write gives the same text as if the first had not happened |
| Versions.ParseOfPrint | apps/updater/src/domain.ts:146-164 | Every printed version is accepted with its own numbers |
| Versions.PrintOfParse | apps/updater/src/domain.ts:146-164 | An accepted text is the printed form of its numbers |
| Versions.CompareIsTotalOrder | apps/updater/src/domain.ts:166-173 | The comparison is a total order on accepted texts, with ties exactly between identical texts |
| Versions.CompareIsNumeric | apps/updater/src/domain.ts:166-173 | It is the order of the numbers read with base 2^53: -1 if and only if the first is below, 1 if and only if it is above |
| Versions.FirstDifference | apps/updater/src/domain.ts:166-173 | The smaller major decides whatever follows, with equal majors the minor, with both equal the patch |
| Versions.SafeNumbersOnly | apps/updater/src/domain.ts:146-164 | A text `va.b.c` of decimals is accepted if and only if no number is above 2^53 - 1 |
| NonceStore.ReplayNonceStore.Consume | apps/updater/src/nonce-store.ts:25-37 | One request on the map in place: refused without persisting, or entered and persisted, the oldest entry given up when the map is full |
| NonceStore.ReplayNonceStore.Load | apps/updater/src/nonce-store.ts:39-59 | The saved entries, last 4096, pruned |
| NonceStore.ReplayNonceStore.PruneEntries | apps/updater/src/nonce-store.ts:61-66 | Deleting during the iteration leaves exactly the entries inside the window, in order |
| NonceStore.PruneTwice | apps/updater/src/nonce-store.ts:61-66 | Pruning early as well changes nothing for a later pruning |
| NonceStore.PutKeepsPlaces | apps/updater/src/nonce-store.ts:25-37 | Setting a nonce changes its entry in place, or adds one at the end |
| NonceStore.LastOfKeeps | apps/updater/src/nonce-store.ts:39-59 | Of a saved list that is too long exactly the first entries are dropped, down to 4096 |
| NonceHistory.ReplayExactly | apps/updater/src/nonce-store.ts:25-37 | A fresh request with a nonce accepted before is accepted again if and only if the entry last made for it has left the window or the full map gave it up in between |
| NonceHistory.AcceptedOnce | apps/updater/src/ipc-auth.ts:36-50 | No nonce and timestamp are accepted twice within the freshness window unless such an eviction lies between |
| NonceHistory.EvictionIsMinimal | apps/updater/src/nonce-store.ts:29-34 | At most 4096 entries ever; an entry is given up only among exactly 4096 entries of the last 60 seconds, the one of least timestamp, the first inserted among equals |
| NonceHistory.AgreesWithHistory | apps/updater/src/nonce-store.ts:25-66 | The bounded, pruned map holds exactly the live part of the unbounded history, in order of acceptance |
| NonceHistory.DecidedByHistory | apps/updater/src/nonce-store.ts:25-37 | A nonce is refused if and only if the history holds it with a live timestamp |
| NonceHistory.HistoryComplete | apps/updater/src/nonce-store.ts:29-34 | Only eviction takes an accepted request out of the history |
| NonceHistory.RestartsInvisible | apps/updater/src/nonce-store.ts:39-77 | Restarts between any requests change no later decision |
| NonceHistory.FloodedReplay | apps/updater/src/nonce-store.ts:29-34 | 4096 other requests at one moment make a replay succeed |
| StableSort.SortIsStable | apps/updater/src/nonce-store.ts:30-32 | The sorted list has the same elements in key order, and equal keys keep their order |
| StableSort.StableIsUnique | apps/updater/src/nonce-store.ts:30-32 | No other list does |
| StableSort.FirstOfSort | apps/updater/src/nonce-store.ts:30-32 | Its first element is the first of those with the least key |
| PeriodAnalytics.ZonedToUtc | apps/api/src/period-analytics.ts:163-174 | The correction loop computes at most three corrections, stopping at the first zero |
| PeriodAnalytics.StopsExact | apps/api/src/period-analytics.ts:166-172 | Whatever the zone does, a result that needs no further correction shows the desired wall clock reading |
| PeriodAnalytics.InversionExactly | apps/api/src/period-analytics.ts:163-174 | With at most one change of offset in reach the result shows the desired reading if and only if that reading exists and is a whole second |
| PeriodAnalytics.MillisecondsNeverExact | apps/api/src/period-analytics.ts:166-172 | A reading with milliseconds is never met, in no zone: every turn adds them once more |
| PeriodAnalytics.BucketDateExactly | apps/api/src/period-analytics.ts:152-155 | A bucket's point shows its local midnight on the wall clock if and only if some moment does |
| PeriodAnalytics.BucketStarts | apps/api/src/period-analytics.ts:152-155 | A moment belongs to bucket n or a later one if and only if its wall clock shows the midnight of bucket n or something later, for days and months |
| PeriodAnalytics.PointStartsBucket | apps/api/src/period-analytics.ts:152-155 | A point whose local midnight exists lies in its own bucket, and whatever the wall clock shows as earlier in an earlier one |
| PeriodAnalytics.KeyIsLocalDate | apps/api/src/period-analytics.ts:116-124 | The day key of a moment is the date its wall clock shows, the month key that date's month |
| PeriodAnalytics.DayKeysBetween | apps/api/src/period-analytics.ts:126-137 | The cursor lists every local day from the first to the last, once and in order |
| PeriodAnalytics.MonthKeysBetween | apps/api/src/period-analytics.ts:139-150 | The same for months |
| PeriodAnalytics.KeysFaithful | apps/api/src/period-analytics.ts:116-124 | Keys stand for days or months one to one |
| PeriodAnalytics.KeysOrdered | apps/api/src/period-analytics.ts:126-150 | Later buckets have later keys in calendar order |
| PeriodAnalytics.AnalyticsSparkline | apps/api/src/period-analytics.ts:95-110 | The loops over maps and cursors give one point per bucket from the start, or the earliest date, to the end, dated by `bucketDate`, each with the number of dates of the period in it |
| PeriodAnalytics.SparklineExactly | apps/api/src/period-analytics.ts:95-110 | The buckets run from that of the start, or of the earliest date, to that of the last millisecond; each value is the number of places in the list whose date is in the period and in the bucket |
| PeriodAnalytics.SumIsCount | apps/api/src/period-analytics.ts:99-109 | In any zone the values sum to the dates of the period that fall in a listed bucket |
| PeriodAnalytics.SparklineConserves | apps/api/src/period-analytics.ts:77-110 | Where the local day never moves backward they sum to all dates of the period, for both buckets and for an open start |
| Calendar.YearLength | apps/api/src/period-analytics.ts:126-137 | Consecutive years start a year apart, leap years included |
| Calendar.MonthMonotone | apps/api/src/period-analytics.ts:139-150 | Later days fall in the same or later months |
| Calendar.CivilIsDate | apps/api/src/period-analytics.ts:126-137 | The year, month and day of a day number are a date of the calendar, with the day inside its month, and give the number back |
| Calendar.CivilRoundTrip | apps/api/src/period-analytics.ts:126-137 | Every date of the calendar survives the way to its day number and back |
| Calendar.DaysFollow | apps/api/src/period-analytics.ts:126-137 | Day 0 is 1 January 1970, and the next day number names the next date, month ends and leap years included |
| Calendar.FirstDayOrder | apps/api/src/period-analytics.ts:139-150 | Comparing first days compares months |
| KanbanOrder.TaskBoardColumns | apps/site/components/task-board-kanban-view.tsx:105-110 | Pushing and sorting in place gives every status its tasks in stable order of position |
| KanbanOrder.ColumnAscends | apps/site/components/task-board-kanban-view.tsx:105-110 | A column ascends in `sortOrder`, holds the tasks of its status, and keeps the order given among tasks at one position |
| KanbanOrder.TaskBoardColumnIds | apps/site/components/task-board-kanban-view.tsx:113-113 | The filled-in record lists the ids of each column |
| KanbanOrder.ColumnsRoundTrip | apps/site/components/task-board-kanban-view.tsx:112-112 | Columns flattened and gathered again are the same columns with fresh positions, wherever the tasks came from |
| KanbanOrder.FlatInOrder | apps/site/components/task-board-kanban-view.tsx:112-112 | The flat list goes through TODO, IN_PROGRESS and DONE, each by ascending position |
| KanbanOrder.NormalColumns | apps/site/components/task-board-kanban-view.tsx:105-112 | Every column of the flattened board has its old order and positions 0 to k-1 |
| KanbanOrder.NormalPermutes | apps/site/components/task-board-kanban-view.tsx:105-112 | Flattening is a permutation of the tasks apart from positions |
| KanbanOrder.NormalKeepsOrder | apps/site/components/task-board-kanban-view.tsx:105-116 | It shows the same order as before |
| KanbanOrder.NormalIdempotent | apps/site/components/task-board-kanban-view.tsx:105-112 | Doing it twice changes nothing |
| KanbanOrder.SameOrderExactly | apps/site/components/task-board-kanban-view.tsx:116-116 | With non-empty ids free of commas the comparison holds if and only if all three id lists are equal |
| KanbanOrder.UncleanConfused | apps/site/components/task-board-kanban-view.tsx:116-116 | For every other id there are two boards with different ids, one of them listing it, that compare equal |
| NotificationTemplates.WideMatchExactly | apps/api/src/notification-templates.ts:338-338 | However the validator's pattern splits a match, it ends where a direct scan for braces says |
| NotificationTemplates.NarrowMatchExactly | apps/api/src/notification-templates.ts:333-333 | The renderer's pattern matches exactly the validator's spans whose key is alphanumeric |
| NotificationTemplates.SpansApart | apps/api/src/notification-templates.ts:338-338 | No two spans overlap |
| NotificationTemplates.ScanComplete | apps/api/src/notification-templates.ts:332-343 | The global search lists every position that matches, in order |
| NotificationTemplates.UnknownPlaceholders | apps/api/src/notification-templates.ts:336-343 | Empty if and only if the text is valid; otherwise the unknown keys and no others, each once, that of the first unknown placeholder first |
| NotificationTemplates.ValidTrimmed | apps/api/src/notification-templates.ts:349-353 | Trimming a field before validation changes no answer |
| NotificationTemplates.ValidatePlaceholders | apps/api/src/notification-templates.ts:234-242 | Accepts if and only if every text field is valid, and otherwise names the first unknown placeholder of the first invalid field |
| NotificationTemplates.SameSpans | apps/api/src/notification-templates.ts:332-343 | On texts whose placeholders are all alphanumeric, valid texts among them, the two scanners find the same spans |
| NotificationTemplates.RenderFills | apps/api/src/notification-templates.ts:332-334 | Rendering keeps the text between the spans and fills each span once; what is put in is not scanned again |
| NotificationTemplates.RenderOfValid | apps/api/src/notification-templates.ts:332-347 | A valid template is rendered as its literal text with every placeholder replaced by the value given for it, or by nothing if none is |
| NotificationTemplates.ScannersAgreeExactly | apps/api/src/notification-templates.ts:332-343 | The two scanners find the same spans if and only if every placeholder of the text is alphanumeric; the renderer leaves every other one standing |
| TaskBoardOverview.OverdueNotDueSoon | apps/api/src/task-board-overview.ts:43-55 | No task is overdue and due soon at once, and a finished one is neither |
| TaskBoardOverview.FinishingNeverLowers | apps/api/src/task-board-overview.ts:66-84 | Finishing a task, all else equal, never lowers the readiness score nor worsens the label |
| TaskBoardOverview.FinishingRaises | apps/api/src/task-board-overview.ts:69-75 | Finishing one of n tasks adds 55/n points, and 8 more if it was overdue |
| TaskBoardOverview.AssigningRaises | apps/api/src/task-board-overview.ts:69-75 | Assigning one that nobody had adds 20/n |
| TaskBoardOverview.ChecklistShare | apps/api/src/task-board-overview.ts:69-75 | A percent of the checklists is worth a quarter of a point |
| TaskBoardOverview.PercentIs | apps/api/src/task-board-overview.ts:66-68 | The percentage is the share of completed items to the nearest whole number, halves upward, and 100 without any item |
| TaskBoardOverview.FinishedBoardComplete | apps/api/src/task-board-overview.ts:66-84 | A finished, assigned board with complete checklists scores 100 and is COMPLETE |
| TaskBoardOverview.TallyAssignees | apps/api/src/task-board-overview.ts:100-120 | The nested loops give every assignee, and nobody else, their counts over the assignments; the totals sum to the number of assignments |
| TaskBoardOverview.TalliesConsistent | apps/api/src/task-board-overview.ts:114-117 | With unique task ids nobody's finished and overdue tasks exceed the assigned ones |
| TaskBoardOverview.OverdueTallyExactly | apps/api/src/task-board-overview.ts:116-117 | The overdue tally of a user counts their overdue tasks if and only if no other task of theirs has the id of an overdue one |
| TaskBoardOverview.BlockersComplete | apps/api/src/task-board-overview.ts:134-168 | A blocker of a kind is listed for exactly the tasks it is about |
| TaskBoardOverview.BlockersExactly | apps/api/src/task-board-overview.ts:134-168 | The kinds come in the order of the code, each with a blocker for every task concerned in the order of the board; none is left out but unassigned tasks when not asked for |
| TaskBoardOverview.ShownAre | apps/api/src/task-board-overview.ts:169-216 | At most eight are shown; without a current user they are the first ones |
| TaskBoardOverview.Blockers | apps/api/src/task-board-overview.ts:122-216 | The list built, sorted for the current user and cut at eight |
| TaskBoardOverview.OwnBlockersFirst | apps/api/src/task-board-overview.ts:169-216 | The blockers of tasks assigned to the user come first, in unchanged order, and no blocker is lost by sorting |

## Left out

Assumptions of the updater model:

- Saves of records, appends of events, writes of `.env`, creation and removal of the lock succeed and are atomic;
  `pruneBackups` and `pruneRuns` succeed. All other operations may fail.
- `cancel`, a load followed by a save, is one step, and so is a lookup by idempotency key in `UpdateWorld`; the loop of
  the lookup is in `AgentStore`.
- Log lines of a streaming command that fails are written before the catch block starts.
- Of the external operations only the release lookup fails with a maintenance code or one that begins with `MANIFEST_`;
  the others fail with any other code.
- `install` returns its run at the moment the lock is taken.
- UpdateWorld.Prune: may remove any finished records but the current one, since which ones are removed does not matter
  to the protocol; `AgentStore.Store.PruneRuns` is exact.
- UpdaterAgent.Agent.ComposeWithLogs: does not count output events up to 1000, which `EventFeed.ComposeOutput` does. The
  output of every command comes to an end.
- `install`, `initialize` and the calls to `cancel` of other runs are steps of `UpdateWorld`, not methods: several of
  them are in progress at once.

Not modelled:

- Docker, file system, network, the `gh` verifier and the contents of attestations: operations that succeed or break,
  with an attested digest equal to the one asked for. HMAC signatures and the HTTP server.
- `state.json`, process ids, timestamps of events, failure summaries and `sanitizeLog`, request validation of
  `install`, the validation fixture version, and the parsing of release manifests.
- The content of backups, the parsing of health checks and of `docker compose ps`.
- In the nonce store: foreign or damaged entries of the file, the queue (requests are one after the other), and clocks
  that go backward. A request reaches the store at a time within the 30 seconds for which its metadata are valid.
- `Intl` zone data: an arbitrary function from moments to whole-second offsets. Keys are triples of numbers, not padded
  texts; the years 0 to 99, which `Date.UTC` shifts, are not treated apart.
- The choice of periods and the comparison percentages of `period-analytics.ts`.
- The choice of a template's language, its database record and the branded email.
- TaskBoardOverview.FinishingNeverLowers: over the reals, not over floating point.
- The collaboration counters, the profile fields of assignees and their final order by name in the overview.
- The components, dictionaries, pages and charts of the site, and the wiring of the API.
