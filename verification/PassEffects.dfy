/**
 What one reconcile pass does, said outcome by outcome and without the functions that compute it: when it
 installs, what it leaves in release storage, what it records, and when the next pass comes.
 */
module PassEffects {
  import opened Basics
  import opened Conditions
  import opened Lifecycle
  import opened LifecycleRuns
  import Backoff

  // ----- The shapes a pass takes -----

  /** The Release in memory once the pass has got to planning. */
  function AtInstall(stored: Rel, o: Calls): Rel
    requires o.fetch.Fetched?
  {
    var st := stored.status.(artifactRevision := o.fetch.revision, artifactDigest := o.fetch.digest);
    stored.(status := if st.observedGeneration != stored.generation then st.(failures := 0) else st)
  }

  predicate Runs(stored: Rel) {
    !stored.deleting && !stored.suspended && stored.finalizer
  }

  lemma PlannedForm(stored: Rel, storage: Storage, o: Calls)
    requires Runs(stored) && ReachesInstall(o)
    ensures Reconcile(stored, storage, o) ==
            Planned(stored, AtInstall(stored, o), storage, o, stored.status.observedGeneration != stored.generation)
  {
  }

  /** A pass that did not get to planning failed, if it ended as neither waiting nor moved on. */
  lemma UnplannedForm(stored: Rel, storage: Storage, o: Calls)
    requires Runs(stored) && !ReachesInstall(o)
    ensures var r := Reconcile(stored, storage, o);
            || r == Failing(stored, stored, storage, false, Captured(None), o, false)
            || r == Failing(stored, stored, storage, false, Captured(storage), o, false)
            || (r.ended in {Moved, Waiting} && !r.installed && !r.rollbackTried
                && r.rel == Written(stored, Project(stored.status, storage, Captured(storage)),
                                    o.writeOk && r.ended == Waiting))
  {
  }

  /** What a failing pass keeps of the status in memory, and what it returns. */
  ghost predicate Fails(stored: Rel, rel: Rel, o: Calls, r: Report) {
    && r.ended == FailedPass && r.requeue != AtOnce && (!o.writeOk ==> r.requeue == WithError && r.rel == stored)
    && (o.writeOk ==>
          && r.rel.status.artifactRevision == rel.status.artifactRevision
          && r.rel.status.artifactDigest == rel.status.artifactDigest
          && r.rel.status.lastAction == if r.rollbackTried && o.rollback.RolledBack? then "rollback"
                                        else rel.status.lastAction)
  }

  lemma FailingFails(stored: Rel, rel: Rel, storage: Storage, attempted: bool, read: Read, o: Calls, reset: bool)
    ensures Fails(stored, rel, o, Failing(stored, rel, storage, attempted, read, o, reset))
  {
    var counted := rel.(status := CountedStatus(rel, storage, read));
    ProjectKeeps(rel.status, storage, read);
    StallingFails(stored, counted, storage, attempted, o, reset);
    RetryingFails(stored, counted, storage, attempted, o, reset);
  }

  lemma RetryingFails(stored: Rel, rel: Rel, storage: Storage, attempted: bool, o: Calls, reset: bool)
    ensures Fails(stored, rel, o, Retrying(stored, rel, storage, attempted, o, reset))
  {
  }

  lemma ProjectKeeps(st: Status, storage: Storage, read: Read)
    ensures var p := Project(st, storage, read);
            && p.artifactRevision == st.artifactRevision && p.artifactDigest == st.artifactDigest
            && p.lastAction == st.lastAction
  {
  }

  lemma StallingFails(stored: Rel, rel: Rel, storage: Storage, attempted: bool, o: Calls, reset: bool)
    ensures Fails(stored, rel, o, Stalling(stored, rel, storage, attempted, o, reset))
  {
    if o.rollback.RolledBack? {
      ProjectKeeps(rel.status.(lastAction := "rollback"), Deployed(storage, o.rollback.state, rel.labels),
                   Refetch(o.rollback.readOk));
    }
  }

  // ----- When it installs -----

  /** The pass runs an install if and only if it got to planning and the plan has changes. */
  lemma InstallsIffPlanned(stored: Rel, storage: Storage, o: Calls)
    ensures Reconcile(stored, storage, o).installed <==>
            && !stored.deleting && !stored.suspended && stored.finalizer
            && o.chart == ChartResolved && o.readOk && o.tempOk && o.fetch.Fetched?
            && o.valuesOk && o.plan == Changes && o.optionsOk
  {
  }

  /** It succeeds if and only if it got to planning, and found nothing to change or installed the changes. */
  lemma SucceedsIff(stored: Rel, storage: Storage, o: Calls)
    ensures Reconcile(stored, storage, o).ended == Succeeded <==>
            && !stored.deleting && !stored.suspended && stored.finalizer && ReachesInstall(o) && o.valuesOk
            && if o.plan == NoChanges then storage.Some? && !Marked(storage.value) ==> o.stampOk
               else o.plan == Changes && o.optionsOk && o.install.Done?
  {
  }

  /** How a pass over a release that is not being deleted ends, if not in success. */
  lemma EndsAs(stored: Rel, storage: Storage, o: Calls)
    requires !stored.deleting
    ensures var ended := Reconcile(stored, storage, o).ended;
            && (ended == Skipped <==> stored.suspended)
            && (ended == FinalizerAdded <==> !stored.suspended && !stored.finalizer)
            && (ended == Moved <==> Runs(stored) && (o.chart == ChartMoved || o.chart == ChartNotStored))
            && (ended == Waiting <==>
                  Runs(stored) && o.chart == ChartResolved && o.readOk && o.tempOk && o.fetch == SourceNotReady)
            && (ended == Succeeded || ended == FailedPass ==> Runs(stored))
            && ended != Deletion
  {
    if Runs(stored) {
      if ReachesInstall(o) {
        PlannedForm(stored, storage, o);
        PlannedEnds(stored, AtInstall(stored, o), storage, o, stored.status.observedGeneration != stored.generation);
      } else {
        FailingFails(stored, stored, storage, false, Captured(None), o, false);
        FailingFails(stored, stored, storage, false, Captured(storage), o, false);
      }
    }
  }

  // ----- What it leaves in storage -----

  /** A revision of the operator's own, on top of what is stored. */
  ghost predicate IsDeployed(before: Storage, after: Storage, state: string, labels: map<string, string>) {
    && after.Some? && after.value.state == state
    && after.value.revision == (if before.Some? then before.value.revision + 1 else 1)
    && after.value.labels == labels["nelm.werf.io/owned-by" := "nelm-operator"]
  }

  /** An install that succeeded leaves one more revision, with the user's labels and the marker. */
  lemma InstallDeploys(stored: Rel, storage: Storage, o: Calls)
    requires Reconcile(stored, storage, o).installed && o.install.Done?
    ensures Reconcile(stored, storage, o).ended == Succeeded
    ensures IsDeployed(storage, Reconcile(stored, storage, o).storage, o.install.state, stored.labels)
  {
    InstallsIffPlanned(stored, storage, o);
    PlannedForm(stored, storage, o);
  }

  /** A pass that runs no install leaves what is stored, but for the marker it puts on what it adopts. */
  lemma NoInstallKeepsStorage(stored: Rel, storage: Storage, o: Calls)
    requires !stored.deleting && !Reconcile(stored, storage, o).installed
    ensures var r := Reconcile(stored, storage, o);
            if r.ended == Succeeded && storage.Some?
            then r.storage == Some(storage.value.(labels := storage.value.labels[MARKER_KEY := MARKER_VALUE]))
            else r.storage == storage
  {
    if storage.Some? && Marked(storage.value) {
      assert storage.value.labels[MARKER_KEY := MARKER_VALUE] == storage.value.labels;
    }
  }

  /** A failed install leaves what it left, and a rollback on top of it one more revision or what it left. */
  lemma FailedInstallLeaves(stored: Rel, storage: Storage, o: Calls)
    requires Reconcile(stored, storage, o).installed && o.install.ActionError?
    ensures var r, left := Reconcile(stored, storage, o), o.install.left;
            && r.ended == FailedPass
            && (if r.rollbackTried && o.rollback.RolledBack?
                then IsDeployed(left, r.storage, o.rollback.state, stored.labels)
                else if r.rollbackTried && o.rollback.RollbackError? then r.storage == o.rollback.left
                else r.storage == left)
  {
    InstallsIffPlanned(stored, storage, o);
    FailingLeaves(stored, AtInstall(stored, o), o, stored.status.observedGeneration != stored.generation);
  }

  lemma FailingLeaves(stored: Rel, rel: Rel, o: Calls, reset: bool)
    requires o.install.ActionError?
    ensures var left := o.install.left;
            var r := Failing(stored, rel, left, true, Refetch(o.refetchOk), o, reset);
            && r.ended == FailedPass
            && (if r.rollbackTried && o.rollback.RolledBack?
                then IsDeployed(left, r.storage, o.rollback.state, rel.labels)
                else if r.rollbackTried && o.rollback.RollbackError? then r.storage == o.rollback.left
                else r.storage == left)
  {
  }

  /** Exactly when a rollback is tried: the install failed, the retries are used up and it was asked for. */
  lemma RollsBackIff(stored: Rel, storage: Storage, o: Calls)
    ensures var r := Reconcile(stored, storage, o);
            var counter := if stored.status.observedGeneration != stored.generation then 0 else stored.status.failures;
            r.rollbackTried <==>
              && r.installed && o.install.ActionError? && stored.install.Some?
              && stored.install.value.autoRollback && counter + 1 > stored.install.value.retries
  {
    if Reconcile(stored, storage, o).installed {
      InstallsIffPlanned(stored, storage, o);
    } else if !stored.deleting {
      PassSums(stored, storage, o);
    }
  }

  // ----- What it records -----

  /** The artifact a pass got to install from is the one it recorded as attempted, whatever came of it. */
  lemma RecordsAttempt(stored: Rel, storage: Storage, o: Calls)
    requires !stored.deleting
    ensures var st := Reconcile(stored, storage, o).rel.status;
            if !stored.suspended && stored.finalizer && ReachesInstall(o) && o.writeOk
            then st.artifactRevision == o.fetch.revision && st.artifactDigest == o.fetch.digest
            else
              && st.artifactRevision == stored.status.artifactRevision
              && st.artifactDigest == stored.status.artifactDigest
  {
    if Runs(stored) {
      if ReachesInstall(o) {
        PlannedForm(stored, storage, o);
        PlannedRecords(stored, AtInstall(stored, o), storage, o, stored.status.observedGeneration != stored.generation);
      } else {
        UnplannedRecords(stored, storage, o);
      }
    }
  }

  /** The artifact and the last action after a pass that got to planning. */
  lemma PlannedRecords(stored: Rel, rel: Rel, storage: Storage, o: Calls, reset: bool)
    ensures var r := Planned(stored, rel, storage, o, reset);
            if !o.writeOk then r.rel == stored && r.requeue == WithError
            else
              && r.rel.status.artifactRevision == rel.status.artifactRevision
              && r.rel.status.artifactDigest == rel.status.artifactDigest && r.requeue != AtOnce
              && r.rel.status.lastAction == (if r.installed && o.install.Done? then "install"
                                             else if r.rollbackTried && o.rollback.RolledBack? then "rollback"
                                             else rel.status.lastAction)
  {
    FailingFails(stored, rel, storage, false, Captured(storage), o, reset);
    if o.install.ActionError? {
      FailingFails(stored, rel, o.install.left, true, Refetch(o.refetchOk), o, reset);
    } else {
      var now := Deployed(storage, o.install.state, rel.labels);
      ProjectKeeps(rel.status.(lastAction := "install"), now, Refetch(o.refetchOk));
    }
    UnchangedRecords(stored, rel, storage, o, reset);
  }

  lemma UnchangedRecords(stored: Rel, rel: Rel, storage: Storage, o: Calls, reset: bool)
    ensures var r := Unchanged(stored, rel, storage, o, reset);
            && !r.installed && !r.rollbackTried && r.requeue != AtOnce
            && if !o.writeOk then r.rel == stored && r.requeue == WithError
               else
                 && r.rel.status.artifactRevision == rel.status.artifactRevision
                 && r.rel.status.artifactDigest == rel.status.artifactDigest
                 && r.rel.status.lastAction == rel.status.lastAction
  {
    ProjectKeeps(rel.status, storage, Captured(storage));
    FailingFails(stored, rel, storage, false, Captured(storage), o, reset);
  }

  lemma UnplannedRecords(stored: Rel, storage: Storage, o: Calls)
    requires Runs(stored) && !ReachesInstall(o)
    ensures var r := Reconcile(stored, storage, o);
            && r.rel.status.artifactRevision == stored.status.artifactRevision
            && r.rel.status.artifactDigest == stored.status.artifactDigest
            && r.rel.status.lastAction == stored.status.lastAction && !r.installed && !r.rollbackTried
  {
    UnplannedForm(stored, storage, o);
    ProjectKeeps(stored.status, storage, Captured(storage));
    FailingFails(stored, stored, storage, false, Captured(None), o, false);
    FailingFails(stored, stored, storage, false, Captured(storage), o, false);
    NoAttempt(stored, storage, Captured(None), o);
    NoAttempt(stored, storage, Captured(storage), o);
  }

  lemma NoAttempt(stored: Rel, storage: Storage, read: Read, o: Calls)
    ensures var r := Failing(stored, stored, storage, false, read, o, false); !r.installed && !r.rollbackTried
  {
  }

  /** The last action is recorded for an install or a rollback that succeeded, and stands otherwise. */
  lemma RecordsAction(stored: Rel, storage: Storage, o: Calls)
    requires !stored.deleting
    ensures var r := Reconcile(stored, storage, o);
            r.rel.status.lastAction ==
              if o.writeOk && r.installed && o.install.Done? then "install"
              else if o.writeOk && r.rollbackTried && o.rollback.RolledBack? then "rollback"
              else stored.status.lastAction
  {
    if Runs(stored) {
      if ReachesInstall(o) {
        PlannedForm(stored, storage, o);
        PlannedRecords(stored, AtInstall(stored, o), storage, o, stored.status.observedGeneration != stored.generation);
      } else {
        UnplannedRecords(stored, storage, o);
      }
    }
  }

  /** Status reports this storage. */
  ghost predicate Mirrors(st: Status, storage: Storage) {
    match storage
    case None => st.revision == 0 && st.revisionState == ""
    case Some(s) => st.revision == s.revision && st.revisionState == s.state
  }

  /** After a success that was stored, status reports what is stored: read back after an install, or as planned on. */
  lemma SuccessMirrors(stored: Rel, storage: Storage, o: Calls)
    requires Reconcile(stored, storage, o).ended == Succeeded && o.writeOk
    ensures var r := Reconcile(stored, storage, o);
            if r.installed && !o.refetchOk
            then
              && r.rel.status.revision == stored.status.revision
              && r.rel.status.revisionState == stored.status.revisionState
            else Mirrors(r.rel.status, r.storage)
  {
    SucceedsIff(stored, storage, o);
  }

  /** Status reports what it reported before. */
  ghost predicate SameReport(st: Status, st': Status) {
    st'.revision == st.revision && st'.revisionState == st.revisionState
  }

  /** What a failing pass reports: the storage it was given or read back, and after a rollback what that left. */
  ghost predicate FailureReports(before: Status, storage: Storage, read: Read, o: Calls, r: Report) {
    if r.rollbackTried && o.rollback.RolledBack? && o.rollback.readOk then Mirrors(r.rel.status, r.storage)
    else match read
         case Captured(given) => Mirrors(r.rel.status, given)
         case Refetch(ok) => if ok then Mirrors(r.rel.status, storage) else SameReport(before, r.rel.status)
  }

  lemma FailingReports(stored: Rel, rel: Rel, storage: Storage, attempted: bool, read: Read, o: Calls, reset: bool)
    requires o.writeOk
    ensures FailureReports(rel.status, storage, read, o, Failing(stored, rel, storage, attempted, read, o, reset))
  {
    var counted := rel.(status := CountedStatus(rel, storage, read));
    CountedReports(rel, storage, read);
    if counted.status.failures > MaxRetries(rel) {
      StallingReports(stored, counted, storage, attempted, o, reset);
      assert Failing(stored, rel, storage, attempted, read, o, reset)
          == Stalling(stored, counted, storage, attempted, o, reset);
    } else {
      RetryingReports(stored, counted, storage, attempted, o, reset);
      assert Failing(stored, rel, storage, attempted, read, o, reset)
          == Retrying(stored, counted, storage, attempted, o, reset);
    }
  }

  lemma CountedReports(rel: Rel, storage: Storage, read: Read)
    ensures var st := CountedStatus(rel, storage, read);
            match read
            case Captured(given) => Mirrors(st, given)
            case Refetch(ok) => if ok then Mirrors(st, storage) else SameReport(rel.status, st)
  {
  }

  lemma RetryingReports(stored: Rel, rel: Rel, storage: Storage, attempted: bool, o: Calls, reset: bool)
    requires o.writeOk
    ensures var r := Retrying(stored, rel, storage, attempted, o, reset);
            !r.rollbackTried && SameReport(rel.status, r.rel.status)
  {
  }

  lemma StallingReports(stored: Rel, rel: Rel, storage: Storage, attempted: bool, o: Calls, reset: bool)
    requires o.writeOk
    ensures var r := Stalling(stored, rel, storage, attempted, o, reset);
            if r.rollbackTried && o.rollback.RolledBack? && o.rollback.readOk then Mirrors(r.rel.status, r.storage)
            else SameReport(rel.status, r.rel.status)
  {
  }

  /** After a failure that was stored: nothing if it came early, else the storage as planned on or as read back. */
  lemma FailureMirrors(stored: Rel, storage: Storage, o: Calls)
    requires Reconcile(stored, storage, o).ended == FailedPass && o.writeOk && !stored.deleting
    ensures var r := Reconcile(stored, storage, o);
            if !r.installed then
              if o.chart == ChartFailed || !o.readOk || !o.tempOk then Mirrors(r.rel.status, None)
              else Mirrors(r.rel.status, storage)
            else if r.rollbackTried && o.rollback.RolledBack? && o.rollback.readOk then Mirrors(r.rel.status, r.storage)
            else o.install.ActionError? &&
                 if o.refetchOk then Mirrors(r.rel.status, o.install.left) else SameReport(stored.status, r.rel.status)
  {
    EndsAs(stored, storage, o);
    if ReachesInstall(o) {
      var rel, reset := AtInstall(stored, o), stored.status.observedGeneration != stored.generation;
      PlannedForm(stored, storage, o);
      FailingReports(stored, rel, storage, false, Captured(storage), o, reset);
      if o.install.ActionError? {
        FailingReports(stored, rel, o.install.left, true, Refetch(o.refetchOk), o, reset);
      }
    } else {
      UnplannedRecords(stored, storage, o);
      FailingReports(stored, stored, storage, false, Captured(None), o, false);
      FailingReports(stored, stored, storage, false, Captured(storage), o, false);
    }
  }

  /** A pass that waits for its source reports what is stored, and changes nothing else. */
  lemma WaitingMirrors(stored: Rel, storage: Storage, o: Calls)
    requires Reconcile(stored, storage, o).ended == Waiting && o.writeOk
    ensures var st := Reconcile(stored, storage, o).rel.status;
            Mirrors(st, storage) && st == stored.status.(revision := st.revision, revisionState := st.revisionState)
  {
    FailingFails(stored, stored, storage, false, Captured(None), o, false);
    FailingFails(stored, stored, storage, false, Captured(storage), o, false);
    if Runs(stored) && ReachesInstall(o) {
      PlannedForm(stored, storage, o);
    }
  }

  // ----- When the next pass comes -----

  /** At once if and only if the pass added the finalizer or moved the chart source on. */
  lemma RequeuesAtOnceIff(stored: Rel, storage: Storage, o: Calls)
    ensures Reconcile(stored, storage, o).requeue == AtOnce <==>
            && !stored.deleting && !stored.suspended
            && if stored.finalizer then o.chart == ChartMoved else o.patchOk
  {
    if Runs(stored) {
      if ReachesInstall(o) {
        PlannedForm(stored, storage, o);
        PlannedRecords(stored, AtInstall(stored, o), storage, o, stored.status.observedGeneration != stored.generation);
      } else {
        FailingFails(stored, stored, storage, false, Captured(None), o, false);
        FailingFails(stored, stored, storage, false, Captured(storage), o, false);
      }
    }
  }

  /** Not of its own accord if and only if it is gone, suspended, waiting for its source, or out of retries. */
  lemma NeverRequeuesIff(stored: Rel, storage: Storage, o: Calls)
    ensures var r := Reconcile(stored, storage, o);
            r.requeue == NoRequeue <==>
              if stored.deleting then !r.rel.finalizer
              else || stored.suspended
                   || (o.writeOk && r.ended == Waiting)
                   || (o.writeOk && r.ended == FailedPass && IsTrue(r.rel.status.conditions, STALLED))
  {
    if !stored.deleting {
      PassSums(stored, storage, o);
      ThreeFlags(stored.status.conditions, stored.generation);
      assert TrueCount(RetryConditions(stored.generation, stored.status.conditions)) == 1;
      QuietOnes(stored, storage, o);
    }
  }

  lemma QuietOnes(stored: Rel, storage: Storage, o: Calls)
    requires !stored.deleting
    ensures var r := Reconcile(stored, storage, o);
            && (r.ended == Skipped <==> stored.suspended) && (r.ended == Skipped ==> r.requeue == NoRequeue)
            && (r.ended in {Moved, FinalizerAdded, Succeeded} ==> r.requeue != NoRequeue)
            && (r.ended in {Waiting, FailedPass} && !o.writeOk ==> r.requeue == WithError)
            && (r.ended == Waiting && o.writeOk ==> r.requeue == NoRequeue)
  {
    if Runs(stored) {
      if ReachesInstall(o) {
        PlannedForm(stored, storage, o);
        PlannedRecords(stored, AtInstall(stored, o), storage, o, stored.status.observedGeneration != stored.generation);
        PlannedEnds(stored, AtInstall(stored, o), storage, o, stored.status.observedGeneration != stored.generation);
      } else {
        FailingFails(stored, stored, storage, false, Captured(None), o, false);
        FailingFails(stored, stored, storage, false, Captured(storage), o, false);
      }
    }
  }

  lemma PlannedEnds(stored: Rel, rel: Rel, storage: Storage, o: Calls, reset: bool)
    ensures var r := Planned(stored, rel, storage, o, reset);
            r.ended in {Succeeded, FailedPass} && (r.ended == Succeeded ==> r.requeue != NoRequeue)
  {
    FailingFails(stored, rel, storage, false, Captured(storage), o, reset);
    if o.install.ActionError? {
      FailingFails(stored, rel, o.install.left, true, Refetch(o.refetchOk), o, reset);
    }
  }

  /** After the interval if it succeeded, and with the error of a write that was lost. */
  lemma SuccessRequeues(stored: Rel, storage: Storage, o: Calls)
    requires Reconcile(stored, storage, o).ended == Succeeded
    ensures Reconcile(stored, storage, o).requeue == if o.writeOk then After(stored.interval) else WithError
  {
    SucceedsIff(stored, storage, o);
  }

  // ----- Deletion -----

  /** A delete pass with a finalizer, stop by stop: what is stored, what is left in storage and what it returns. */
  lemma DeletePass(stored: Rel, storage: Storage, o: Calls)
    requires stored.deleting && stored.finalizer
    ensures var r := Reconcile(stored, storage, o);
            var uninstalls := o.markOk && o.tempOk;
            var done := uninstalls && o.uninstall.Done?;
            && r.requeue == (if done && o.recordOk && o.cleanupOk && o.patchOk then NoRequeue else WithError)
            && (r.rel.finalizer <==> !(done && o.recordOk && o.cleanupOk && o.patchOk))
            && r.storage == (if !uninstalls then storage else if done then None else o.uninstall.left)
            && r.uninstalled == done && !r.installed && r.ended == Deletion
            && r.rel.status.lastAction == (if done && o.recordOk then "uninstall" else stored.status.lastAction)
            && r.rel.status.observedGeneration
               == (if o.markOk then stored.generation else stored.status.observedGeneration)
            && r.rel.status.failures == stored.status.failures && r.rel.status.revision == stored.status.revision
  {
  }

  // ----- Condition entries -----

  /** What the conditions say after each outcome: status, generation and reason of all three. */
  lemma StoredEntries(conditions: seq<Condition>, g: int)
    ensures var after := SuccessConditions(g, conditions);
            && Find(after, READY) == Some(Condition(READY, true, g, "InstallSucceeded"))
            && Find(after, RECONCILING) == Some(Condition(RECONCILING, false, g, "Succeeded"))
            && Find(after, STALLED) == Some(Condition(STALLED, false, g, "Succeeded"))
    ensures var after := RetryConditions(g, conditions);
            && Find(after, READY) == Some(Condition(READY, false, g, "InstallFailed"))
            && Find(after, RECONCILING) == Some(Condition(RECONCILING, true, g, "RetryPending"))
            && Find(after, STALLED) == Some(Condition(STALLED, false, g, "RetryPending"))
    ensures var after := StalledConditions(g, conditions);
            && Find(after, READY) == Some(Condition(READY, false, g, "InstallFailed"))
            && Find(after, RECONCILING) == Some(Condition(RECONCILING, false, g, "RetriesExhausted"))
            && Find(after, STALLED) == Some(Condition(STALLED, true, g, "RetriesExhausted"))
  {
    FoundAfterThree(conditions, Condition(READY, true, g, "InstallSucceeded"),
                    Condition(RECONCILING, false, g, "Succeeded"), Condition(STALLED, false, g, "Succeeded"));
    FoundAfterThree(conditions, Condition(READY, false, g, "InstallFailed"),
                    Condition(RECONCILING, true, g, "RetryPending"), Condition(STALLED, false, g, "RetryPending"));
    FoundAfterThree(conditions, Condition(STALLED, true, g, "RetriesExhausted"),
                    Condition(READY, false, g, "InstallFailed"), Condition(RECONCILING, false, g, "RetriesExhausted"));
  }
}
