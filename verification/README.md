# nelm-operator: a verified model of its reconciler

nelm-operator deploys Helm charts described by `Release` objects. This project models the parts of
it in which something can go wrong between two API calls, and proves what holds over every run:

* **The shared chart-source protocol.** Releases of one namespace share source objects. Each source
  carries a comma-joined annotation with the names of the releases that use it: a distributed
  reference count kept with optimistic concurrency, while each release drives its own persisted
  phase machine (`""`/Ready, Pending, Disconnecting). `Protocol.dfy` is a transition system at the
  granularity of API calls. Passes of different releases, conflicts, refused calls, crashes, spec
  edits, deletions and foreign writers interleave at every call. `Operator.dfy` is the code of the
  source calls, as a class whose methods compute what they write and call an API server that
  everybody else uses at the same time. Every execution of it is a run of the transition system; what
  makes a call fail is stated, and left alone a pass does exactly what a pass of the system does.
* **The life cycle of a release.** `Lifecycle.dfy` computes what one reconcile pass does for every way its
  outside calls can turn out; `Reconciler.dfy` is the code that updates the Release in memory field
  by field and stores it, proved to do just that; `LifecycleRuns.dfy`, `ForeignChanges.dfy` and
  `Backoff.dfy` hold the properties of whole runs. `Joint.dfy` runs both models of one release at once.
* **The watch indexes and values resolution.** `Values.dfy`, `ConfigIndex.dfy`, `SourceIndex.dfy` and
  `Wakeup.dfy` relate the fast form (index keys, event predicates) to the simple one (what the
  reconciler reads).

| file | contents |
|---|---|
| `Basics.dfy`, `RefNames.dfy` | the annotation: splitting, joining, and the finite set it stands for |
| `Protocol.dfy` | the transition system |
| `SourceSafety.dfy`, `Registrations.dfy` | resource versions, deletion safety, who lists whom |
| `PhaseMachine.dfy`, `Leaks.dfy`, `Departures.dfy`, `Deletions.dfy` | the registration invariant, leaks, deletion and switching, and when a source goes |
| `Reachable.dfy` | the states those results start from are reached |
| `Convergence.dfy`, `Progress.dfy`, `Cleanups.dfy` | settling, and what passes left alone achieve, source by source |
| `Operator.dfy` | `ensureChartSourceRef`, `cleanupChartSourceRef`, `resolveChartRef` as code under interference |
| `Joint.dfy` | sources and life cycle together |
| `Conditions.dfy`, `Backoff.dfy` | status conditions, the retry delay in 64-bit arithmetic |
| `Lifecycle.dfy`, `PassEffects.dfy`, `LifecycleRuns.dfy`, `ForeignChanges.dfy`, `Reconciler.dfy` | the life cycle: a pass, what it does outcome by outcome, whole runs, the code |
| `Values.dfy`, `ConfigIndex.dfy`, `SourceIndex.dfy`, `Wakeup.dfy` | values, indexes, watches |

`dafny verify dfyconfig.toml` checks the whole project.

## Hypotheses

They appear in the statements, as predicates named here.

* The operator's source API group and version are fixed during a run (`KeepsApi`, `Uses`). References
  are compared with group and version, but objects are looked up by the configured ones.
* Other writers leave the release-refs annotation alone and delete no source (`Benign`); deletion safety
  needs neither. They may create sources, bump resource versions and edit other annotations at will.
* Release names are not empty and hold no comma (`ValidName`), as API admission guarantees.
* A rejected write has no effect, and an update that changes nothing keeps the resource version. A write
  that took effect while its reply was lost is a call followed by the end of the pass.
* Each pass reads the current Release, and passes of one release are sequential, as in the work queue.
* In the joint model alone, edits of a release fall between its passes (`Ongoing`).

## Where the code departs from what one would promise

Each of these comes with the theorem that says, for all inputs, exactly when the promise holds.

* A pass cut short between ensuring a source and recording it, followed by a spec edit, leaves the
  release listed in the abandoned source (`Leaks.CrashThenEditLeaks`). Abandoning a candidate that lists
  the release is the only step of the whole system that leaks (`Leaks.AbandoningIsTheOnlyLeak`).
* Deletion cleans only the last applied source, so a release deleted in Disconnecting leaves its
  candidate listing it (`Departures.DeletionInDisconnectingLeaks`, `Departures.DeletionLeavesExactly`).
* The delete that follows the update which empties a source's list takes effect if and only if nobody wrote
  the source in between (`Deletions.DeletedIffLastUser`). If somebody did, a status write or a release that
  joins being enough, or if the pass is cut short there, the list keeps an empty entry and the operator
  never deletes the source again (`Deletions.SparedSourceStaysForGood`). A cleanup left alone deletes a
  source if and only if the release was its last user (`Cleanups.LonePassReleases`,
  `Cleanups.LonePassDisconnects`, `Cleanups.LonePassUnwinds`).
* The HelmChart of a former spec.chart is removed by one call of one pass: it is gone for good if that
  call is made and there for good if it is not (`Departures.HelmChartCleanupIsNotRetried`).
* A switch to chartRef that is cut short after its unregistering write and taken back leaves the release
  Ready, for good, on a source that does not list it (`PhaseMachine.SwitchBackLosesRegistration`). Such a
  write is the only step that takes a release off the source it relies on
  (`PhaseMachine.ForsakingIsTheOnlyLoss`).
* When the last applied reference and the candidate differ in API group or version alone, cleaning up
  the one unregisters the other, and only then (`PhaseMachine.GroupChangeUnregistersCandidate`,
  `Cleanups.LonePassDisconnects`).
* Foreign changes are reported if and only if a revision is on record
  (`ForeignChanges.ReportedIffOnRecord`). Among the failures without an install exactly those on the chart,
  on the storage read and on the temporary directory clear it (`ForeignChanges.EarlyFailureBlinds`).
* The operator takes its own install, failed install or rollback for a foreign change when the revision it
  made was not both read back and stored; the exact condition is in `ForeignChanges.InstallAlarm`,
  `ForeignChanges.FailedInstallAlarm` and `ForeignChanges.RollbackAlarm`.
* The retry delay overflows: the 30th retry gets a negative delay (`Backoff.TightBound`,
  `LifecycleRuns.RetryComesIffSignClear`).
* Not every generation gets its own retry budget: the failure counter starts over if and only if the
  generation's first stored failure came from reconcileInstall, and an earlier failure makes it inherit
  the failures of the former generation (`LifecycleRuns.NewGenerationStartsOver`).
* From the announcement of the uninstall on, a release that was Ready is Ready and Reconciling, and one
  that was Stalled is Stalled and Reconciling; the conditions stay exclusive in every other case
  (`LifecycleRuns.DeletionMixesConditions`).
* A release that waits on a source which keeps its revision misses its wake-up if and only if it is Ready
  or Reconciling and has attempted that revision (`Wakeup.WakeUpLost`).
* With `oci` set beside another inline source the index and the reconciler disagree
  (`SourceIndex.AgreesIffOciIsAlone`); admission forbids such a spec.

## Model

| member | source | states |
|---|---|---|
| `RefNames.Names` | internal/controller/release_controller.go:425-432 | no name read from an annotation holds a comma |
| `RefNames.NoNameIsNotAnEmptyName` | internal/controller/release_controller.go:425-432 | there are no names if and only if there is no annotation map, and one empty name if and only if the annotation is absent or empty |
| `RefNames.JoinUndoesSplit` | internal/controller/release_controller.go:430-431 | joining what was split gives back every text |
| `RefNames.SplitUndoesJoin` | internal/controller/release_controller.go:286-286 | splitting what was joined gives back every non-empty list of comma-free names |
| `RefNames.CreateRegistersOne` | internal/controller/release_controller.go:264-271 | a created source registers exactly its creator |
| `RefNames.RegisterRefinesInsert` | internal/controller/release_controller.go:276-287 | the registering write appends one name, inserts one element into the set the annotation stands for, keeps the list duplicate-free and every other annotation as it was |
| `RefNames.UnregisterRefinesRemove` | internal/controller/release_controller.go:312-344 | the unregistering write takes one name out of the list, keeps every other annotation as it was, and the delete gate opens if and only if the set became empty and no empty entry was present |
| `SourceSafety.VersionsStep` | internal/controller/release_controller.go:253-359 | every step, foreign ones included, keeps what passes remember of sources exact or certain to be refused |
| `SourceSafety.VersionsRun` | internal/controller/release_controller.go:253-359 | the same over every run |
| `SourceSafety.NoSourceDeletedInUse` | internal/controller/release_controller.go:293-359 | in every run, with any foreign writers, a source the operator makes disappear names no release at that moment |
| `Registrations.ListingStep` | internal/controller/release_controller.go:276-332 | a step changes which sources list a release if and only if it is that release's own registering or unregistering write, and then by one pair |
| `Registrations.OrderlyRun` | internal/controller/release_controller.go:276-332 | through every run all annotations stay duplicate-free |
| `Registrations.OthersUntouched` | internal/controller/release_controller.go:276-332 | no step of anybody else changes the registrations of a release |
| `Registrations.OtherAnnotationsStep` | internal/controller/release_controller.go:264-287 | no step of the operator or its users changes another annotation or the identity of a source; a created source has no other annotation |
| `Registrations.OtherAnnotationsRun` | internal/controller/release_controller.go:321-330 | the same over runs of any number of releases |
| `PhaseMachine.ShapeStep` | internal/controller/release_controller.go:156-251 | every step keeps the relation between the persisted phase, the two references and where the pass stands |
| `PhaseMachine.ForsakingIsTheOnlyLoss` | internal/controller/release_controller.go:156-251 | a step takes a release off the source it relies on if and only if it is its own unregistering write for a chartRef or a deletion, on that source |
| `PhaseMachine.UnforsakenRunsStayBacked` | internal/controller/release_controller.go:156-251 | over every run without such a write, spec switches and deletion included, the source relied on exists and lists the release |
| `PhaseMachine.HoldsStep` | internal/controller/release_controller.go:197-250 | every step of a spec.chart run keeps the registrations that the phase machine relies on |
| `PhaseMachine.RegistrationInvariant` | internal/controller/release_controller.go:197-250 | in every spec.chart run, with failures and crashes anywhere: in Ready and Pending the last applied source exists and lists the release, in Disconnecting the candidate does |
| `PhaseMachine.SwitchBackLosesRegistration` | internal/controller/release_controller.go:156-176 | spec.chart has to stay set: after any switch to chartRef cut short and taken back, through every later run, the source lists the release if and only if its unregistering write was not made |
| `PhaseMachine.SettledListingStands` | internal/controller/release_controller.go:197-207 | a settled release is neither registered nor unregistered by any later pass |
| `PhaseMachine.GroupChangeUnregistersCandidate` | internal/controller/release_controller.go:230-235 | an unregistering write leaves the candidate listing the release if and only if the two references name different objects |
| `Leaks.AbandoningIsTheOnlyLeak` | internal/controller/release_controller.go:208-216 | a step leaks a registration if and only if it replaces an ensured candidate in Pending |
| `Leaks.FaithfulRunsDoNotLeak` | internal/controller/release_controller.go:147-359 | runs without such a write leak nothing, spec switches and deletions included |
| `Leaks.NoLeakedRegistrations` | internal/controller/release_controller.go:208-243 | if the status write after each ensure succeeds, the sources listing a release are among last applied and candidate, and in Ready exactly the last applied one |
| `Leaks.CrashThenEditLeaks` | internal/controller/release_controller.go:218-225 | a crash between ensure and its status write, then an edit, leaks |
| `Leaks.ReachesEnsured` | internal/controller/release_controller.go:197-225 | that crash point is reached from an empty cluster |
| `Departures.DeletionLeavesExactly` | internal/controller/release_controller.go:606-658 | once the finalizer is gone, after any failed and retried delete passes, the sources listing the release are those at the start without the last applied one |
| `Departures.DeletionFromReadyLeavesNothing` | internal/controller/release_controller.go:606-658 | deletion begun in Ready without a leak leaves the release listed nowhere |
| `Departures.DeletionInDisconnectingLeaks` | internal/controller/release_controller.go:645-649 | deletion in Disconnecting leaves the candidate listing the release, in every run |
| `Departures.BystandersUntouched` | internal/controller/release_controller.go:293-359 | meanwhile every other release's registrations are unchanged |
| `Departures.SwitchingToChartRefUnwinds` | internal/controller/release_controller.go:156-182 | from any phase without a leak, one pass that ends well leaves no registration, no source field and no HelmChart, and the next resolves to the user's kind and name in its namespace, or in the release's if it names none |
| `Departures.HelmChartCleanupIsNotRetried` | internal/controller/release_controller.go:168-175 | through every later run the HelmChart is there if and only if the one call that removes it was not made |
| `Deletions.DeletedIffLastUser` | internal/controller/release_controller.go:312-356 | in every interleaving, the call after an unregistering update removes the source if and only if the release was its last user and nobody wrote the source in between |
| `Deletions.EmptiedSourceIsNeverDeleted` | internal/controller/release_controller.go:344-356 | a source with an empty entry that no pass is about to delete survives every run |
| `Deletions.SparedSourceStaysForGood` | internal/controller/release_controller.go:330-356 | an emptied source outlives the next call if and only if the pass was cut short or somebody wrote the source in between, and then no later run of the operator deletes it |
| `Reachable.ReachesSettled` | internal/controller/release_controller.go:197-243 | a release alone settles from an empty cluster |
| `Reachable.SettledAloneIsAtRest` | internal/controller/release_controller.go:197-243 | there it keeps every invariant and is the last user of its source |
| `Reachable.ReachesSwitchingAway` | internal/controller/release_controller.go:156-162 | every settled release that its source lists can get to the unregistering write of a switch to chartRef |
| `Reachable.ReachesUnregister` | internal/controller/release_controller.go:645-649 | and to that of a deletion |
| `Reachable.ReachesDeletionInDisconnecting` | internal/controller/release_controller.go:199-226 | an edit and two passes take any settled release to Disconnecting on two sources, where it can be deleted |
| `Reachable.ReachesHelmChartCleanup` | internal/controller/release_controller.go:156-173 | every settled release with a HelmChart can get to the one call that removes it |
| `Convergence.DistanceShrinks` | internal/controller/release_controller.go:197-243 | each phase step brings the release one pass closer, from at most four; distance zero is exactly Ready on the expected source |
| `Convergence.CleanPassAdvances` | internal/controller/release_controller.go:184-250 | a pass that ends without a failure makes exactly one phase step, whatever the cluster does meanwhile |
| `Convergence.PhaseMachineConverges` | internal/controller/release_controller.go:184-250 | with a fixed spec.chart at most four such passes settle the release on a source that lists it, and further ones change no source field |
| `Progress.SmoothCall` | internal/controller/release_controller.go:253-359 | a call that nothing interfered with is not refused and uses up one of the remaining calls |
| `Progress.CallFailsIff` | internal/controller/release_controller.go:264-356 | exactly which calls fail the pass and which are tried again: a create that finds the source, an update that does not, a delete that finds another version fail; an update that finds another version is retried |
| `Progress.LonePassEndsWell` | internal/controller/release_controller.go:147-359 | a pass left alone ends without a failure within eight calls |
| `Progress.FourLonePassesSettle` | internal/controller/release_controller.go:184-250 | after any spec.chart run with any failures, four passes left alone make the release Ready on the source its spec names, existing and listing it |
| `Cleanups.LoneCleanup` | internal/controller/release_controller.go:293-359 | a cleanup left alone, from its first call to its last: every release and every source afterwards, the cleaned one as FreedMeans says |
| `Cleanups.FreedMeans` | internal/controller/release_controller.go:312-356 | the cleaned source loses the release and no other user, keeps its identity and every other annotation, and is gone if and only if the release was its last user; no other source changes |
| `Cleanups.LonePassUnwinds` | internal/controller/release_controller.go:156-175 | one pass left alone over a chartRef clears the fields and the HelmChart and releases both former sources, each gone if and only if the release was its last user |
| `Cleanups.LonePassReleases` | internal/controller/release_controller.go:640-657 | one delete pass left alone takes the finalizer and releases the last applied source, gone if and only if the release was its last user, and no other |
| `Cleanups.LonePassDisconnects` | internal/controller/release_controller.go:228-242 | one pass left alone in Disconnecting settles on the candidate and releases the last applied source; the candidate still lists the release unless the references differ in group and version alone |
| `Operator.Pass.Interfere` | internal/controller/release_controller.go:253-359 | everybody else's steps before a call are all taken, and counted by whether they wrote, created or removed the source in focus |
| `Operator.Pass.LookUp` | internal/controller/release_controller.go:255-274 | the read of a registration: with no call refused it tells what is stored |
| `Operator.Pass.CreateRegistered` | internal/controller/release_controller.go:264-271 | the create lists the release; with no call refused it fails only if the source has come since |
| `Operator.Pass.Register` | internal/controller/release_controller.go:276-289 | the registering update lists the release and keeps every other annotation; with no call refused it conflicts only if the source was written since, and fails only if it was removed |
| `Operator.Pass.EnsureOnce` | internal/controller/release_controller.go:254-290 | one try lists the release, or meets a conflict because of a write, or fails because of a removal, a creation or a refusal; left alone it succeeds |
| `Operator.Pass.EnsureChartSourceRef` | internal/controller/release_controller.go:253-291 | the source lists the release, or the pass failed: with no call refused only if the source was created or removed meanwhile or written before five calls, so fewer conflicts are ridden out; left alone it succeeds |
| `Operator.Pass.LookUpRegistered` | internal/controller/release_controller.go:302-314 | the read of a cleanup: missing and not listing are alike |
| `Operator.Pass.Unregister` | internal/controller/release_controller.go:312-337 | the unregistering update yields the stored source and the names left and keeps every other annotation; with no call refused it conflicts and fails only because of a write or a removal since |
| `Operator.Pass.CleanupOnce` | internal/controller/release_controller.go:301-338 | one try unregisters, finds nothing to do, meets a conflict because of a write or fails because of a removal or a refusal; left alone it succeeds |
| `Operator.Pass.UnregisterWithRetries` | internal/controller/release_controller.go:301-342 | with no call refused it fails only if the source was created or removed meanwhile or written before five calls; left alone it succeeds |
| `Operator.Pass.DeleteUnused` | internal/controller/release_controller.go:344-356 | the guarded delete is tried once: with no call refused it fails only if the source was written since the update; left alone it succeeds |
| `Operator.Pass.CleanupChartSourceRef` | internal/controller/release_controller.go:293-359 | the whole cleanup goes on to the next call with the status untouched, or failed: with no call refused only if somebody wrote the source meanwhile; left alone it succeeds |
| `Operator.Pass.constructor` | internal/controller/release_controller.go:71-78 | a pass starts at the origin of its run |
| `Operator.Pass.UpdateStatus` | internal/controller/release_controller.go:222-226 | the status computed in memory is the one the transition system writes; it fails only if refused, and then nothing changes |
| `Operator.Pass.SetHelmChart` | internal/controller/release_controller.go:361-423 | the HelmChart is applied or deleted; it fails only if refused |
| `Operator.Pass.PatchFinalizer` | internal/controller/release_controller.go:89-96 | the finalizer is added or removed; it fails only if refused, and then nothing changes |
| `Operator.Pass.EnsureHelmChart` | internal/controller/release_controller.go:361-404 | an OCI source resolves to itself, any other to the applied HelmChart; left alone it does not fail |
| `Operator.Pass.Advance` | internal/controller/release_controller.go:197-250 | the switch over the persisted phase computes one phase step and stores it, or none; left alone it does not fail |
| `Operator.Pass.Unwind` | internal/controller/release_controller.go:158-175 | the former spec.chart is given up completely or the pass failed, which left alone it does not |
| `Operator.Pass.ResolveChartRef` | internal/controller/release_controller.go:147-251 | a pass over spec.chart makes one phase step or none and resolves only when settled; over chartRef it clears the fields or resolves to the user's kind and name in its namespace, or in the release's if it names none; left alone it fails if and only if spec.chart names no source |
| `Operator.Pass.ReleaseSources` | internal/controller/release_controller.go:636-657 | the finalizer goes if and only if the pass ends well, never without an uninstall, and always after one when left alone |
| `Operator.Pass.Dispatch` | internal/controller/release_controller.go:80-101 | in deletion the finalizer goes if and only if the pass ends well; otherwise a pass that advances leaves less to do, whoever interferes, and one that resolves nothing |
| `Operator.Pass.Reconcile` | internal/controller/release_controller.go:71-101 | left alone, the code does to every source and every release exactly what a pass of the transition system left alone does, and fails only if spec.chart names no source |
| `Operator.Pass.Settle` | internal/controller/release_controller.go:71-101 | left alone, at most six passes end with the finalizer gone in deletion, and otherwise with nothing left to do |
| `Operator.Pass.Live` | internal/controller/release_controller.go:71-359 | after any number of passes amid any interference that leaves spec.chart set, at most six passes left alone make the release Ready on the source its spec names, which lists it; in deletion the finalizer goes |
| `Conditions.FlagAfterSet` | internal/controller/release_controller.go:1128-1130 | setting a condition changes what is looked up for its own type and for no other |
| `Conditions.FoundAfterSet` | internal/controller/release_controller.go:1128-1130 | setting a condition stores it whole and leaves the entries of other types as they were |
| `Conditions.OnePerKindAfterSet` | internal/controller/release_controller.go:1128-1130 | one entry per type is kept |
| `Backoff.DelayIsExact` | internal/controller/release_controller.go:765-765 | for every failure count, the 64-bit delay is the one meant, and is positive, if and only if the sign bit of the product is clear |
| `Backoff.WrappedProduct` | internal/controller/release_controller.go:765-765 | what the product wraps to, cut where bit 63 falls |
| `Backoff.TightBound` | internal/controller/release_controller.go:765-765 | all delays up to n are exact if and only if n is at most 29 |
| `Backoff.DelayGrows` | internal/controller/release_controller.go:765-765 | up to 29 the delay is positive, never shrinks and never passes five minutes |
| `Backoff.TotalWait` | internal/controller/release_controller.go:765-765 | the total wait over 4 to 29 retries is 450 + 300(n - 4) seconds |
| `LifecycleRuns.PassSums` | internal/controller/release_controller.go:80-141 | what any pass over a release not being deleted can do to the finalizer, counter, generation, conditions, retry and rollback |
| `PassEffects.InstallsIffPlanned` | internal/controller/release_controller.go:444-481 | a pass runs an install if and only if it got to planning and the plan has changes |
| `PassEffects.SucceedsIff` | internal/controller/release_controller.go:455-495 | it succeeds if and only if the plan has no changes and an unmarked revision could be stamped, or the install of the changes succeeded |
| `PassEffects.EndsAs` | internal/controller/release_controller.go:80-128 | exactly when it is skipped, adds the finalizer, moves the source on or waits |
| `PassEffects.InstallDeploys` | internal/controller/release_controller.go:480-495 | an install leaves one more revision, with the user's labels and the marker |
| `PassEffects.NoInstallKeepsStorage` | internal/controller/release_controller.go:455-466 | without an install the stored revision stays, but for the marker on what is adopted |
| `PassEffects.FailedInstallLeaves` | internal/controller/release_controller.go:706-710 | what a failed install leaves, and a rollback on top of it |
| `PassEffects.RollsBackIff` | internal/controller/release_controller.go:701-710 | a rollback is tried if and only if the install failed, it was asked for and the retries are used up |
| `PassEffects.RecordsAttempt` | internal/controller/release_controller.go:132-138 | the artifact is recorded as attempted if and only if the pass got to planning and its status was stored |
| `PassEffects.RecordsAction` | internal/controller/release_controller.go:494-494 | the last action is recorded for an install or rollback that succeeded, and stands otherwise |
| `PassEffects.SuccessMirrors` | internal/controller/release_controller.go:660-664 | after a stored success status reports the stored revision and its state, unless it could not be read back |
| `PassEffects.FailureMirrors` | internal/controller/release_controller.go:576-597 | after a stored failure status reports nothing if it came early, else the storage planned on, read back or rolled back to, or what it reported before |
| `PassEffects.WaitingMirrors` | internal/controller/release_controller.go:121-127 | a waiting pass reports the stored revision and changes nothing else |
| `PassEffects.RequeuesAtOnceIff` | internal/controller/release_controller.go:95-101 | the next pass comes at once if and only if the finalizer was added or the chart source moved on |
| `PassEffects.NeverRequeuesIff` | internal/controller/release_controller.go:80-128 | no pass is scheduled if and only if the release is gone, suspended, waiting for its source or out of retries |
| `PassEffects.SuccessRequeues` | internal/controller/release_controller.go:686-690 | after a success the next pass comes after the interval, or with the error of a lost write |
| `PassEffects.DeletePass` | internal/controller/release_controller.go:606-658 | a delete pass, stop by stop: what is stored, what is left in storage, what is recorded and what it returns |
| `PassEffects.StoredEntries` | internal/controller/release_controller.go:660-759 | status, generation and reason of the three conditions after each outcome |
| `LifecycleRuns.FinalizerGoesLast` | internal/controller/release_controller.go:606-658 | the finalizer goes only in a pass whose uninstall and source cleanup succeeded |
| `Joint.JoinedStep` | internal/controller/release_controller.go:71-141 | a life cycle pass and its source calls, each taking the other's outcome, agree on the finalizer |
| `Joint.AskedAgainIffAdvanced` | internal/controller/release_controller.go:156-251 | the next pass is asked for at once if and only if the pass over the sources advanced |
| `Joint.AskedAgainUntilSettled` | internal/controller/release_controller.go:197-243 | left alone over spec.chart, if and only if the release is not settled yet |
| `Joint.GoneLeavesExactly` | internal/controller/release_controller.go:606-658 | once the finalizer is gone, in any phase, what the operator installed is uninstalled and exactly the last applied source has lost the release |
| `Joint.GoneMeansGone` | internal/controller/release_controller.go:606-658 | deletion from Ready without a leak: once the finalizer is gone, what the operator installed is uninstalled and no source lists the release |
| `Joint.InstallsFromListedSource` | internal/controller/release_controller.go:98-140 | in every spec.chart run of both models, a pass that installs is Ready on the source its spec names, which exists and lists the release |
| `LifecycleRuns.DeployedImpliesFinalizer` | internal/controller/release_controller.go:80-96 | in every run, what the operator installed and has not uninstalled since carries the finalizer |
| `LifecycleRuns.ThreeFlags` | internal/controller/release_controller.go:660-768 | each of the three outcomes leaves exactly one of Ready, Reconciling and Stalled true, the right one |
| `LifecycleRuns.ConditionsExclude` | internal/controller/release_controller.go:660-768 | in every run without deletion at most one of the three is true, and exactly one once an outcome was stored; one entry per type |
| `LifecycleRuns.DeletionMixesConditions` | internal/controller/release_controller.go:611-621 | through every run after a deletion at most one of the three is true, unless an uninstall was announced of a release that was Ready or Stalled; then, and only then, two are |
| `LifecycleRuns.RetryBudget` | internal/controller/release_controller.go:693-768 | from a reset counter the i-th failing pass in a row schedules retry i with Reconciling true while i is within the retries, and then stalls with nothing scheduled |
| `LifecycleRuns.RetryComesIffSignClear` | internal/controller/release_controller.go:761-767 | within the retries a positive delay is scheduled if and only if the sign bit is clear: always up to 29, never at 30 |
| `LifecycleRuns.NewGenerationStartsOver` | internal/controller/release_controller.go:437-439 | after an edit, n failing passes leave the counter at n if and only if the first reached reconcileInstall or nothing was on it; otherwise the old failures are added |
| `LifecycleRuns.InheritedFailuresStall` | internal/controller/release_controller.go:698-706 | the next failing pass of the generation stalls if and only if it exceeds the retries less the failures inherited |
| `LifecycleRuns.CounterBounded` | internal/controller/release_controller.go:437-439 | with lost writes, the stored counter never exceeds the failing passes since its last stored reset |
| `LifecycleRuns.RollbackOnlyAfterBudget` | internal/controller/release_controller.go:706-710 | with lost writes, rollback is tried only in a pass that ran an install, asked for, and after at least retries + 1 failing passes |
| `ForeignChanges.SuccessRecordsLatest` | internal/controller/release_controller.go:455-496 | after a recorded success the latest stored revision is marked and is the recorded one |
| `ForeignChanges.DetectionIsExact` | internal/controller/release_controller.go:524-535 | after any foreign upgrades, uninstalls and reinstalls, a change is detected if and only if there was one |
| `ForeignChanges.ReportedIffOnRecord` | internal/controller/release_controller.go:524-535 | any non-empty foreign changes are reported if and only if a revision is on record |
| `ForeignChanges.FailureRecords` | internal/controller/release_controller.go:589-596 | what a stored failure without an install leaves on record |
| `ForeignChanges.EarlyFailureBlinds` | internal/controller/release_controller.go:106-115 | after a stored failure without an install, foreign changes go unreported if and only if it was on the chart, the storage read or the directory |
| `ForeignChanges.InstallAlarm` | internal/controller/release_controller.go:576-597 | an install is taken for a foreign change if and only if its revision was not both read back and stored, and exceeds one on record |
| `ForeignChanges.FailedInstallAlarm` | internal/controller/release_controller.go:480-482 | the same, exactly, of an install that failed without a rollback |
| `ForeignChanges.RollbackAlarm` | internal/controller/release_controller.go:788-794 | the same, exactly, of a rollback |
| `Reconciler.MergeOwnershipLabels` | internal/controller/release_controller.go:974-981 | a copy of the user's labels with the marker forced on, every other label kept |
| `Reconciler.ReleaseReconciler.PutCondition` | internal/controller/release_controller.go:1128-1130 | the in-place search and write is the list operation proved above |
| `Reconciler.ReleaseReconciler.ProjectStatusFromStorage` | internal/controller/release_controller.go:576-597 | revision fields follow the given or freshly read storage, and stay on a read error |
| `Reconciler.ReleaseReconciler.HandleSuccess` | internal/controller/release_controller.go:660-691 | the stored and in-memory Release and the schedule after a success, lost write included |
| `Reconciler.ReleaseReconciler.HandleFailure` | internal/controller/release_controller.go:693-768 | the stored Release, the storage and the schedule after a failure, as the retry results use it |
| `Reconciler.ReleaseReconciler.AttemptRollback` | internal/controller/release_controller.go:770-795 | a rollback deploys a marked revision and projects it, or leaves the status alone |
| `Reconciler.ReleaseReconciler.ReconcileInstall` | internal/controller/release_controller.go:434-496 | the code does what the pass model says, of which PassEffects states when it installs, adopts and fails and what it leaves |
| `Reconciler.ReleaseReconciler.ReconcileDelete` | internal/controller/release_controller.go:606-658 | every stop on the way to dropping the finalizer, with what is stored by then |
| `Reconciler.ReleaseReconciler.Pass` | internal/controller/release_controller.go:71-141 | the whole pass does what the pass model says, for every way its calls turn out; PassEffects states what that is, the next pass included |
| `Reconciler.ReleaseReconciler.Live` | internal/controller/release_controller.go:71-141 | through any passes of this code, edits, deletion and foreign changes: what is deployed carries the finalizer, and the conditions are exclusive until deletion |
| `Values.FirstBroken` | internal/values/values.go:37-44 | the first required reference that cannot be read |
| `Values.ReadsNamedEntry` | internal/values/values.go:115-158 | a reference reads the entry under its data key, or under values.yaml if it names none, of the ConfigMap or Secret of its name, and nothing if that is missing |
| `Values.ReadsNamedKey` | internal/values/values.go:160-171 | the secret key and the keyring read a Secret, under the data key or under key |
| `Values.ResolveReferences` | internal/values/values.go:37-51 | appends the readable references in order, skips unreadable optional ones, and stops exactly at the first broken one |
| `Values.PositionsOfValues` | internal/values/values.go:22-51 | which contents stand at which position: chart files, inline values, then each readable reference after those readable before it |
| `Values.PositionsOfSecrets` | internal/values/values.go:53-92 | the same of the secret values, and what the secret key and the keyring are |
| `Values.FailsAtFirst` | internal/values/values.go:37-85 | which failure is reported: that of the first step, in the order of the code, that cannot read what it needs |
| `Values.Resolve` | internal/values/values.go:22-95 | chart files, inline values, then readable references; it fails if and only if a required reference, the secret key or the keyring cannot be read, naming the first |
| `ConfigIndex.ReferenceKeys` | internal/controller/release_indexer.go:179-188 | the keys of exactly the references of the kind |
| `ConfigIndex.ConfigDependencyKeys` | internal/controller/release_indexer.go:168-191 | the index keys are exactly those of the objects of the kind the spec refers to |
| `ConfigIndex.ResolutionDependsOnlyOnIndexed` | internal/values/values.go:22-95 | for every valid spec, clusters that agree on the indexed objects give the same outcome, contents and failures alike |
| `ConfigIndex.IndexIsExact` | internal/controller/release_indexer.go:168-191 | an object of the namespace is indexed if and only if in some cluster the outcome depends on it |
| `ConfigIndex.RequestsForConfigDependency` | internal/controller/release_indexer.go:130-166 | exactly the releases indexed under the changed object are enqueued |
| `ConfigIndex.NoRelevantChangeIsMissed` | internal/controller/release_indexer.go:130-191 | a change of one object that changes what a release resolves to is indexed for it |
| `SourceIndex.HelmChartNamesDiffer` | internal/source/builders_helmchart.go:63-67 | two releases of one namespace never share a HelmChart name, whatever the hash function |
| `SourceIndex.KeyTextInjective` | internal/controller/release_manager.go:52-52 | index keys are equal if and only if kind, namespace and name are |
| `SourceIndex.IndexAgreesWithReconciler` | internal/controller/release_manager.go:22-53 | for every admitted spec the index key is that of the object a settled pass reads |
| `SourceIndex.IndexSpelledOut` | internal/controller/release_manager.go:22-53 | the key spelled out for a chartRef with and without a namespace, for oci and for the other inline sources |
| `SourceIndex.BuiltSource` | internal/source/source.go:48-110 | kind and name of the source for each of the four inline kinds; the name moves with the hash of the body |
| `SourceIndex.BuiltReference` | internal/controller/release_controller.go:184-195 | the reference that is compared and stored carries the operator's group and version and the release's namespace |
| `SourceIndex.SharedIffSameHash` | internal/source/source.go:94-110 | two releases of one namespace build the same source if and only if theirs are of one kind and their bodies hash alike |
| `SourceIndex.AgreesIffOciIsAlone` | internal/controller/release_manager.go:36-48 | with several inline sources set, index and settled pass agree if and only if oci is absent or alone |
| `Wakeup.CheckReadyCondition` | internal/source/source.go:154-180 | the source counts as ready if and only if its first Ready entry is true |
| `Wakeup.OnlyNewsPasses` | internal/predicates/source.go:48-71 | an update passes if and only if it brings an artifact that was not there before or a turn to ready |
| `Wakeup.UpToDateIff` | internal/controller/release_indexer.go:22-24 | up to date means ready or reconciling with the artifact at the revision attempted last |
| `Wakeup.RequestsForHelmChartChange` | internal/controller/release_indexer.go:40-79 | with an artifact, exactly the listed releases that are not up to date with it are enqueued |
| `Wakeup.WaitingWakesUp` | internal/predicates/source.go:33-72 | any updates from not ready to ready contain one that passes the predicate, and they enqueue the release unless it is up to date with the revision the source ends with |
| `Wakeup.WakeUpLost` | internal/controller/release_indexer.go:61-67 | for a source that keeps one revision, the release is enqueued if and only if it is not Ready or Reconciling or has not attempted that revision |

## Left out

- Nelm actions (plan, install, rollback, uninstall, storage drivers): only their effect on the latest stored revision is modelled, and a failed action may leave any storage.
- Option builders, patch files, timeouts, events, logging, impersonation and kube connection settings: field copying.
- Artifact download and temporary files: resolved values are contents, not paths.
- SHA-256 and JSON in names: the hash is a parameter of which only its twelve characters are assumed; the specs of sources are opaque, and the name-length limits of Kubernetes are not modelled.
- Source-side finalizers, stale informer caches and leader election: deletion of a source is one step and reads are current.
- Re-creation of a release under a former name: the set of releases is fixed in a run.
- requestsForOCIRepositoryChange and its digest extraction (internal/controller/release_indexer.go:81-128), and the label selector on dependency watches.
- Messages and transition times of conditions.
- The resource version of the Release itself: a status write that loses a race is a refused call.
- Values.Resolve: does not model a temporary file that cannot be written, because files are contents here.
- Operator.Pass.ReleaseSources: takes the outcome of the uninstall as an input; the uninstall and the status writes around it are in Reconciler.ReleaseReconciler.ReconcileDelete, and Joint.dfy joins the two.
- Reconciler.ReleaseReconciler.ReconcileInstall: does not model a foreign change of the storage between the read at the start of the pass and its end; foreign changes fall between passes.
- Reconciler.ReleaseReconciler.Pass: takes the outcomes of resolveChartRef and of the source cleanup as inputs; the two are modelled call by call in Protocol.dfy and Operator.dfy, and tied to those inputs in Joint.dfy.
- Joint.GoneMeansGone: edits of the release while one of its passes is under way are not in the joint model; they are in Protocol.dfy.
- Wakeup.WaitingWakesUp: the Flux library's own notions of ready and reconciling are parameters; it is assumed that ready implies a true Ready condition, and readiness an artifact.
