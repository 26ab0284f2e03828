/**
 The reconciler's code, which changes the Release it holds in memory field by field and stores
 it with status writes, proved to do what the life cycle model says of a pass.
 */
module Reconciler {
  import opened Basics
  import opened Conditions
  import opened Lifecycle
  import opened LifecycleRuns
  import Backoff

  /** Where the entry of a type stands in the list. */
  lemma {:induction false} SetAt(conditions: seq<Condition>, c: Condition, i: nat)
    requires i <= |conditions| && forall j :: 0 <= j < i ==> conditions[j].kind != c.kind
    requires i < |conditions| ==> conditions[i].kind == c.kind
    ensures SetCondition(conditions, c) == if i < |conditions| then conditions[i := c] else conditions + [c]
  {
    if conditions != [] && i > 0 {
      SetAt(conditions[1..], c, i - 1);
      assert conditions == [conditions[0]] + conditions[1..];
    }
  }

  /** ownershipLabels: a fresh map with the user's labels and the marker forced on. */
  method MergeOwnershipLabels(userLabels: map<string, string>) returns (merged: map<string, string>)
    ensures MARKER_KEY in merged && merged[MARKER_KEY] == MARKER_VALUE
    ensures merged.Keys == userLabels.Keys + {MARKER_KEY}
    ensures forall k :: k in userLabels && k != MARKER_KEY ==> merged[k] == userLabels[k]
    ensures merged == OwnershipLabels(userLabels)
  {
    merged := map[];
    var rest := userLabels.Keys;
    while rest != {}
      invariant rest <= userLabels.Keys && merged.Keys == userLabels.Keys - rest
      invariant forall k :: k in merged ==> merged[k] == userLabels[k]
    {
      var k :| k in rest;
      merged := merged[k := userLabels[k]];
      rest := rest - {k};
    }
    merged := merged[MARKER_KEY := MARKER_VALUE];
  }

  class ReleaseReconciler {
    var rel: Rel            // the Release in memory
    var stored: Rel         // the Release as the API server has it
    var storage: Storage    // release storage

    constructor (stored: Rel, storage: Storage)
      ensures this.stored == stored && this.storage == storage && rel == stored
    {
      this.rel, this.stored, this.storage := stored, stored, storage;
    }

    method PutCondition(c: Condition)
      modifies this`rel
      ensures rel == old(rel).(status := old(rel).status.(conditions := SetCondition(old(rel).status.conditions, c)))
    {
      var conditions := rel.status.conditions;
      var i := 0;
      while i < |conditions| && conditions[i].kind != c.kind
        invariant i <= |conditions| && forall j :: 0 <= j < i ==> conditions[j].kind != c.kind
      {
        i := i + 1;
      }
      SetAt(conditions, c, i);
      rel := rel.(status := rel.status.(
                    conditions := if i < |conditions| then conditions[i := c] else conditions + [c]));
    }

    method MarkReady()
      modifies this`rel
      ensures rel == old(rel).(status := old(rel).status.(
                       conditions := SuccessConditions(old(rel).generation, old(rel).status.conditions)))
    {
      PutCondition(Condition(READY, true, rel.generation, "InstallSucceeded"));
      PutCondition(Condition(RECONCILING, false, rel.generation, "Succeeded"));
      PutCondition(Condition(STALLED, false, rel.generation, "Succeeded"));
    }

    method MarkRetrying()
      modifies this`rel
      ensures rel == old(rel).(status := old(rel).status.(
                       conditions := RetryConditions(old(rel).generation, old(rel).status.conditions)))
    {
      PutCondition(Condition(READY, false, rel.generation, "InstallFailed"));
      PutCondition(Condition(RECONCILING, true, rel.generation, "RetryPending"));
      PutCondition(Condition(STALLED, false, rel.generation, "RetryPending"));
    }

    method MarkStalled()
      modifies this`rel
      ensures rel == old(rel).(status := old(rel).status.(
                       conditions := StalledConditions(old(rel).generation, old(rel).status.conditions)))
    {
      PutCondition(Condition(STALLED, true, rel.generation, "RetriesExhausted"));
      PutCondition(Condition(READY, false, rel.generation, "InstallFailed"));
      PutCondition(Condition(RECONCILING, false, rel.generation, "RetriesExhausted"));
    }

    method UpdateStatus(ok: bool)
      modifies this`stored
      ensures stored == Written(old(stored), rel.status, ok)
    {
      if ok {
        stored := stored.(status := rel.status);
      }
    }

    method ProjectStatusFromStorage(captured: Storage, refetch: bool, readOk: bool)
      modifies this`rel
      ensures var read := if refetch then Refetch(readOk) else Captured(captured);
              rel == old(rel).(status := Project(old(rel).status, storage, read))
    {
      var current := captured;
      if refetch {
        if !readOk { return; }
        current := storage;
      }
      if current.None? {
        rel := rel.(status := rel.status.(revision := 0, revisionState := ""));
        return;
      }
      rel := rel.(status := rel.status.(revision := current.value.revision));
      rel := rel.(status := rel.status.(revisionState := current.value.state));
    }

    method HandleSuccess(read: Read, o: Calls) returns (requeue: Requeue)
      modifies this`rel, this`stored
      ensures rel == old(rel).(status := SuccessStatus(old(rel), storage, read))
      ensures stored == Written(old(stored), rel.status, o.writeOk)
      ensures requeue == if o.writeOk then After(old(rel).interval) else WithError
    {
      ProjectStatusFromStorage(if read.Captured? then read.current else None, read.Refetch?, read == Refetch(true));
      rel := rel.(status := rel.status.(failures := 0));
      rel := rel.(status := rel.status.(observedGeneration := rel.generation));
      MarkReady();
      UpdateStatus(o.writeOk);
      requeue := if o.writeOk then After(rel.interval) else WithError;
    }

    method AttemptRollback(rollback: Rollback)
      modifies this`rel, this`storage
      ensures (rel.status, storage) == AfterRollback(old(rel), old(storage), rollback)
      ensures rel == old(rel).(status := rel.status)
    {
      match rollback {
        case NotStarted =>
        case RollbackError(left) =>
          storage := left;
        case RolledBack(state, readOk) =>
          var labels := MergeOwnershipLabels(rel.labels);
          storage := Some(Stored(NextRevision(storage), state, labels));
          rel := rel.(status := rel.status.(lastAction := "rollback"));
          ProjectStatusFromStorage(None, true, readOk);
      }
    }

    method CountFailure(read: Read)
      modifies this`rel
      ensures rel == old(rel).(status := CountedStatus(old(rel), storage, read))
    {
      ProjectStatusFromStorage(if read.Captured? then read.current else None, read.Refetch?, read == Refetch(true));
      rel := rel.(status := rel.status.(failures := rel.status.failures + 1));
      rel := rel.(status := rel.status.(observedGeneration := rel.generation));
    }

    method Stall(installAttempted: bool, o: Calls, ghost reset: bool) returns (requeue: Requeue)
      modifies this
      ensures var r := Stalling(old(stored), old(rel), old(storage), installAttempted, o, reset);
              stored == r.rel && storage == r.storage && requeue == r.requeue
    {
      if installAttempted && rel.install.Some? && rel.install.value.autoRollback {
        AttemptRollback(o.rollback);
      }
      MarkStalled();
      UpdateStatus(o.writeOk);
      requeue := if o.writeOk then NoRequeue else WithError;
    }

    method HandleFailure(installAttempted: bool, read: Read, o: Calls, ghost reset: bool) returns (requeue: Requeue)
      modifies this
      ensures var r := Failing(old(stored), old(rel), old(storage), installAttempted, read, o, reset);
              stored == r.rel && storage == r.storage && requeue == r.requeue
    {
      CountFailure(read);
      var maxRetries := 0;
      if rel.install.Some? {
        maxRetries := rel.install.value.retries;
      }
      if rel.status.failures > maxRetries {
        requeue := Stall(installAttempted, o, reset);
        return;
      }
      MarkRetrying();
      UpdateStatus(o.writeOk);
      requeue := if o.writeOk then After(Backoff.Delay(rel.status.failures)) else WithError;
    }

    method ReconcileInstall(preRel: Storage, o: Calls) returns (requeue: Requeue)
      requires preRel == storage
      modifies this
      ensures var r := Installing(old(stored), old(rel), old(storage), o);
              stored == r.rel && storage == r.storage && requeue == r.requeue
    {
      ghost var reset := rel.status.observedGeneration != rel.generation;
      if rel.status.observedGeneration != rel.generation {
        rel := rel.(status := rel.status.(failures := 0));
      }
      requeue := PlanAndInstall(preRel, o, reset);
    }

    method PlanAndInstall(preRel: Storage, o: Calls, ghost reset: bool) returns (requeue: Requeue)
      requires preRel == storage
      modifies this
      ensures var r := Planned(old(stored), old(rel), old(storage), o, reset);
              stored == r.rel && storage == r.storage && requeue == r.requeue
    {
      if !o.valuesOk || o.plan.PlanError? || (o.plan.Changes? && !o.optionsOk) {
        requeue := HandleFailure(false, Captured(preRel), o, reset);
      } else if o.plan.NoChanges? {
        requeue := AdoptRelease(preRel, o, reset);
      } else {
        requeue := InstallRelease(o, reset);
      }
    }

    /** The plan has no changes: the stored revision is as desired. */
    method AdoptRelease(preRel: Storage, o: Calls, ghost reset: bool) returns (requeue: Requeue)
      requires preRel == storage
      modifies this
      ensures var r := Unchanged(old(stored), old(rel), old(storage), o, reset);
              stored == r.rel && storage == r.storage && requeue == r.requeue
    {
      if preRel.Some? && !Marked(preRel.value) {
        if !o.stampOk {
          requeue := HandleFailure(false, Captured(preRel), o, reset);
          return;
        }
        storage := Some(Stamped(preRel.value));
      }
      requeue := HandleSuccess(Captured(preRel), o);
    }

    /** The plan has changes: run the install. */
    method InstallRelease(o: Calls, ghost reset: bool) returns (requeue: Requeue)
      modifies this
      ensures var read := Refetch(o.refetchOk);
              var r := match o.install
                       case ActionError(left) => Failing(old(stored), old(rel), left, true, read, o, reset)
                       case Done(state) =>
                         Succeeding(old(stored), old(rel).(status := old(rel).status.(lastAction := "install")),
                                    Deployed(old(storage), state, old(rel).labels), read, o, true, reset);
              stored == r.rel && storage == r.storage && requeue == r.requeue
    {
      match o.install {
        case ActionError(left) =>
          storage := left;
          requeue := HandleFailure(true, Refetch(o.refetchOk), o, reset);
        case Done(state) =>
          var labels := MergeOwnershipLabels(rel.labels);
          storage := Some(Stored(NextRevision(storage), state, labels));
          rel := rel.(status := rel.status.(lastAction := "install"));
          requeue := HandleSuccess(Refetch(o.refetchOk), o);
      }
    }

    method ReconcileDelete(o: Calls) returns (requeue: Requeue)
      requires rel == stored
      modifies this
      ensures var r := Deleting(old(stored), old(storage), o);
              stored == r.rel && storage == r.storage && requeue == r.requeue
    {
      requeue := WithError;
      if !rel.finalizer {
        return NoRequeue;
      }
      PutCondition(Condition(RECONCILING, true, rel.generation, "Uninstalling"));
      rel := rel.(status := rel.status.(observedGeneration := rel.generation));
      UpdateStatus(o.markOk);
      if !o.markOk { return; }
      if !o.tempOk { return; }
      if o.uninstall.ActionError? {
        storage := o.uninstall.left;
        return;
      }
      storage := None;
      rel := rel.(status := rel.status.(lastAction := "uninstall"));
      UpdateStatus(o.recordOk);
      if !o.recordOk { return; }
      if !o.cleanupOk { return; }
      rel := rel.(finalizer := false);
      if !o.patchOk { return; }
      stored := stored.(finalizer := false);
      requeue := NoRequeue;
    }

    method Pass(o: Calls) returns (requeue: Requeue)
      modifies this
      ensures var r := Reconcile(old(stored), old(storage), o);
              stored == r.rel && storage == r.storage && requeue == r.requeue
    {
      rel := stored;
      if rel.deleting {
        requeue := ReconcileDelete(o);
        return;
      }
      if rel.suspended {
        return NoRequeue;
      }
      if !rel.finalizer {
        rel := rel.(finalizer := true);
        if !o.patchOk {
          return WithError;
        }
        stored := stored.(finalizer := true);
        return AtOnce;
      }
      match o.chart {
        case ChartMoved => return AtOnce;
        case ChartNotStored => return WithError;
        case ChartFailed =>
          requeue := HandleFailure(false, Captured(None), o, false);
          return;
        case ChartResolved =>
      }
      if !o.readOk {
        requeue := HandleFailure(false, Captured(None), o, false);
        return;
      }
      var preRel := storage;
      if !o.tempOk {
        requeue := HandleFailure(false, Captured(None), o, false);
        return;
      }
      match o.fetch {
        case SourceNotReady =>
          ProjectStatusFromStorage(preRel, false, false);
          UpdateStatus(o.writeOk);
          requeue := if o.writeOk then NoRequeue else WithError;
        case FetchError =>
          requeue := HandleFailure(false, Captured(preRel), o, false);
        case Fetched(revision, digest) =>
          rel := rel.(status := rel.status.(artifactDigest := digest));
          rel := rel.(status := rel.status.(artifactRevision := revision));
          requeue := ReconcileInstall(preRel, o);
      }
    }

    /**
     The reconciler through a whole life: passes with any outcome, between them edits, the deletion and
     what others do to the storage. `life` is the history that its two promises speak of.
     */
    method Live(events: seq<Event>, ghost start: Life) returns (ghost life: Life)
      requires Fresh(start) && start.rel == stored && start.storage == storage
      modifies this
      ensures life == Run(start, events) && life.rel == stored && life.storage == storage
      ensures life.deployed ==> stored.finalizer
      ensures !start.rel.deleting && Delete !in events ==>
                && OnePerKind(stored.status.conditions) && TrueCount(stored.status.conditions) <= 1
                && (life.settled ==> TrueCount(stored.status.conditions) == 1)
    {
      life := start;
      for i := 0 to |events|
        invariant life == Run(start, events[..i]) && life.rel == stored && life.storage == storage
      {
        RunSnoc(start, events, i);
        match events[i] {
          case Pass(o) =>
            var _ := Pass(o);
          case ForeignUpgrade(state, labels) =>
            storage := Some(Stored(NextRevision(storage), state, labels));
          case ForeignUninstall =>
            storage := None;
          case Edit(suspended, install, labels, interval) =>
            stored := stored.(suspended := suspended, install := install, labels := labels, interval := interval,
                              generation := stored.generation + 1);
          case Delete =>
            stored := stored.(deleting := true);
        }
        life := Step(life, events[i]);
      }
      assert events[..|events|] == events;
      DeployedImpliesFinalizer(start, events);
      if !start.rel.deleting && Delete !in events {
        ConditionsExclude(start, events);
      }
    }
  }
}
