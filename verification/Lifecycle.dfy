/**
 The life cycle of a release, one reconcile pass at a time: what a pass does to the stored
 Release and to the release storage, given how each of its outside calls turns out.
 */
module Lifecycle {
  import opened Basics
  import opened Conditions
  import Backoff

  // ----- Release storage -----

  /** The latest stored revision of a deployed release. */
  datatype Stored = Stored(revision: int, state: string, labels: map<string, string>)

  type Storage = Option<Stored>

  const MARKER_KEY := "nelm.werf.io/owned-by"
  const MARKER_VALUE := "nelm-operator"

  predicate Marked(s: Stored) {
    MARKER_KEY in s.labels && s.labels[MARKER_KEY] == MARKER_VALUE
  }

  function OwnershipLabels(userLabels: map<string, string>): map<string, string> {
    userLabels[MARKER_KEY := MARKER_VALUE]
  }

  function NextRevision(storage: Storage): int {
    if storage.None? then 1 else storage.value.revision + 1
  }

  /** An install or rollback by the operator: a new revision that carries the marker. */
  function Deployed(storage: Storage, state: string, userLabels: map<string, string>): Storage {
    Some(Stored(NextRevision(storage), state, OwnershipLabels(userLabels)))
  }

  /** detectForeignChange. */
  predicate DetectForeignChange(recordedRevision: int, current: Storage) {
    recordedRevision != 0 &&
    (current.None? || current.value.revision > recordedRevision || !Marked(current.value))
  }

  // ----- The Release object -----

  datatype Install = Install(retries: int, autoRollback: bool)

  datatype Status = Status(
    observedGeneration: int,
    conditions: seq<Condition>,
    revision: int,
    revisionState: string,
    lastAction: string,
    failures: nat,
    artifactRevision: string,
    artifactDigest: string)

  datatype Rel = Rel(
    generation: int,
    deleting: bool,
    suspended: bool,
    finalizer: bool,
    install: Option<Install>,
    labels: map<string, string>,
    interval: int,
    status: Status)

  function MaxRetries(rel: Rel): int {
    if rel.install.Some? then rel.install.value.retries else 0
  }

  predicate AutoRollback(rel: Rel) {
    rel.install.Some? && rel.install.value.autoRollback
  }

  // ----- How outside calls turn out -----

  datatype Chart = ChartResolved | ChartMoved | ChartNotStored | ChartFailed

  datatype Fetch = Fetched(revision: string, digest: string) | SourceNotReady | FetchError

  datatype Plan = NoChanges | Changes | PlanError

  datatype Action = Done(state: string) | ActionError(left: Storage)

  datatype Rollback = NotStarted | RolledBack(state: string, readOk: bool) | RollbackError(left: Storage)

  datatype Calls = Calls(
    patchOk: bool,          // the finalizer patch
    chart: Chart,           // resolveChartRef
    readOk: bool,           // the first read of release storage
    tempOk: bool,           // the temporary directory, and the uninstall options
    fetch: Fetch,           // the chart artifact
    valuesOk: bool,         // the values and the plan options
    plan: Plan,
    stampOk: bool,          // the ownership marker on an adopted revision
    optionsOk: bool,        // the install options
    install: Action,
    refetchOk: bool,        // the read of release storage after an install
    rollback: Rollback,
    markOk: bool,           // the status write that announces the uninstall
    uninstall: Action,
    recordOk: bool,         // the status write that records the uninstall
    cleanupOk: bool,        // the cleanup of the last applied chart source
    writeOk: bool)          // the status write that ends the pass

  datatype Requeue = NoRequeue | AtOnce | After(nanoseconds: int) | WithError

  datatype Ended =
    | Skipped
    | FinalizerAdded
    | Moved
    | Waiting
    | Succeeded
    | FailedPass
    | Deletion

  /** What a pass left behind, and what it did on the way. */
  datatype Report = Report(
    rel: Rel,               // the Release as stored afterwards
    storage: Storage,
    requeue: Requeue,
    ended: Ended,
    installed: bool,        // an install was run
    uninstalled: bool,      // an uninstall succeeded
    rollbackTried: bool,
    reset: bool)            // the failure counter was reset for a new generation

  // ----- projectStatusFromStorage, handleSuccess, handleFailure, attemptRollback -----

  /** The release that status is projected from: one the caller has, or a fresh read. */
  datatype Read = Captured(current: Storage) | Refetch(ok: bool)

  function Project(st: Status, storage: Storage, read: Read): Status {
    if read == Refetch(false) then st
    else
      var current := match read case Captured(c) => c case Refetch(_) => storage;
      if current.None? then st.(revision := 0, revisionState := "")
      else st.(revision := current.value.revision, revisionState := current.value.state)
  }

  function SuccessConditions(generation: int, conditions: seq<Condition>): seq<Condition> {
    SetThree(conditions,
             Condition(READY, true, generation, "InstallSucceeded"),
             Condition(RECONCILING, false, generation, "Succeeded"),
             Condition(STALLED, false, generation, "Succeeded"))
  }

  function RetryConditions(generation: int, conditions: seq<Condition>): seq<Condition> {
    SetThree(conditions,
             Condition(READY, false, generation, "InstallFailed"),
             Condition(RECONCILING, true, generation, "RetryPending"),
             Condition(STALLED, false, generation, "RetryPending"))
  }

  function StalledConditions(generation: int, conditions: seq<Condition>): seq<Condition> {
    SetThree(conditions,
             Condition(STALLED, true, generation, "RetriesExhausted"),
             Condition(READY, false, generation, "InstallFailed"),
             Condition(RECONCILING, false, generation, "RetriesExhausted"))
  }

  function SuccessStatus(rel: Rel, storage: Storage, read: Read): Status {
    var st := Project(rel.status, storage, read);
    st.(failures := 0, observedGeneration := rel.generation,
        conditions := SuccessConditions(rel.generation, st.conditions))
  }

  /** The status with one more failure on the counter. */
  function CountedStatus(rel: Rel, storage: Storage, read: Read): Status {
    Project(rel.status, storage, read).(failures := rel.status.failures + 1, observedGeneration := rel.generation)
  }

  function AfterRollback(rel: Rel, storage: Storage, rollback: Rollback): (Status, Storage) {
    match rollback
    case NotStarted => (rel.status, storage)
    case RollbackError(left) => (rel.status, left)
    case RolledBack(state, readOk) =>
      var storage' := Deployed(storage, state, rel.labels);
      (Project(rel.status.(lastAction := "rollback"), storage', Refetch(readOk)), storage')
  }

  /** A failing pass from the point where it fails; `rel` is the Release in memory. */
  function Failing(stored: Rel, rel: Rel, storage: Storage, attempted: bool, read: Read, o: Calls, reset: bool): Report
  {
    var counted := CountedStatus(rel, storage, read);
    if counted.failures > MaxRetries(rel) then Stalling(stored, rel.(status := counted), storage, attempted, o, reset)
    else Retrying(stored, rel.(status := counted), storage, attempted, o, reset)
  }

  /** Retries exhausted: roll back if asked to, and stop. */
  function Stalling(stored: Rel, rel: Rel, storage: Storage, attempted: bool, o: Calls, reset: bool): Report {
    var rollbackTried := attempted && AutoRollback(rel);
    var (st, storage') := if rollbackTried then AfterRollback(rel, storage, o.rollback) else (rel.status, storage);
    Report(Written(stored, st.(conditions := StalledConditions(rel.generation, st.conditions)), o.writeOk), storage',
           if o.writeOk then NoRequeue else WithError, FailedPass, attempted, false, rollbackTried, reset)
  }

  /** Another retry, after a delay that grows with the failures. */
  function Retrying(stored: Rel, rel: Rel, storage: Storage, attempted: bool, o: Calls, reset: bool): Report {
    var st := rel.status;
    Report(Written(stored, st.(conditions := RetryConditions(rel.generation, st.conditions)), o.writeOk), storage,
           if o.writeOk then After(Backoff.Delay(st.failures)) else WithError,
           FailedPass, attempted, false, false, reset)
  }

  function Succeeding(
    stored: Rel, rel: Rel, storage: Storage, read: Read, o: Calls, installed: bool, reset: bool): Report
  {
    Report(Written(stored, SuccessStatus(rel, storage, read), o.writeOk), storage,
           if o.writeOk then After(rel.interval) else WithError, Succeeded, installed, false, false, reset)
  }

  /** The stored Release after a status write; a rejected write has no effect. */
  function Written(stored: Rel, st: Status, ok: bool): Rel {
    if ok then stored.(status := st) else stored
  }

  // ----- reconcileInstall -----

  function Installing(stored: Rel, rel: Rel, storage: Storage, o: Calls): Report {
    var reset := rel.status.observedGeneration != rel.generation;
    Planned(stored, if reset then rel.(status := rel.status.(failures := 0)) else rel, storage, o, reset)
  }

  /** The rest of the pass, with the failure counter that counts. */
  function Planned(stored: Rel, rel: Rel, storage: Storage, o: Calls, reset: bool): Report {
    if !o.valuesOk || o.plan.PlanError? || (o.plan.Changes? && !o.optionsOk)
    then Failing(stored, rel, storage, false, Captured(storage), o, reset)
    else if o.plan.NoChanges? then Unchanged(stored, rel, storage, o, reset)
    else
      match o.install
      case ActionError(left) => Failing(stored, rel, left, true, Refetch(o.refetchOk), o, reset)
      case Done(state) =>
        Succeeding(stored, rel.(status := rel.status.(lastAction := "install")),
                   Deployed(storage, state, rel.labels), Refetch(o.refetchOk), o, true, reset)
  }

  /** Nothing to change: an unmarked revision is adopted by stamping the marker on it. */
  function Unchanged(stored: Rel, rel: Rel, storage: Storage, o: Calls, reset: bool): Report {
    if storage.Some? && !Marked(storage.value) then
      if !o.stampOk then Failing(stored, rel, storage, false, Captured(storage), o, reset)
      else Succeeding(stored, rel, Some(Stamped(storage.value)), Captured(storage), o, false, reset)
    else Succeeding(stored, rel, storage, Captured(storage), o, false, reset)
  }

  function Stamped(s: Stored): Stored {
    s.(labels := s.labels[MARKER_KEY := MARKER_VALUE])
  }

  // ----- reconcileDelete -----

  function Deleting(stored: Rel, storage: Storage, o: Calls): Report {
    var uninstalling := Condition(RECONCILING, true, stored.generation, "Uninstalling");
    var conditions := SetCondition(stored.status.conditions, uninstalling);
    var announced := stored.(status := stored.status.(
                               conditions := conditions, observedGeneration := stored.generation));
    if !stored.finalizer then Report(stored, storage, NoRequeue, Deletion, false, false, false, false)
    else if !o.markOk then Report(stored, storage, WithError, Deletion, false, false, false, false)
    else if !o.tempOk then Report(announced, storage, WithError, Deletion, false, false, false, false)
    else
      match o.uninstall
      case ActionError(left) => Report(announced, left, WithError, Deletion, false, false, false, false)
      case Done(_) =>
        var recorded := announced.(status := announced.status.(lastAction := "uninstall"));
        if !o.recordOk then Report(announced, None, WithError, Deletion, false, true, false, false)
        else if !o.cleanupOk || !o.patchOk then Report(recorded, None, WithError, Deletion, false, true, false, false)
        else Report(recorded.(finalizer := false), None, NoRequeue, Deletion, false, true, false, false)
  }

  // ----- Reconcile -----

  function Reconcile(stored: Rel, storage: Storage, o: Calls): Report {
    if stored.deleting then Deleting(stored, storage, o)
    else if stored.suspended then Report(stored, storage, NoRequeue, Skipped, false, false, false, false)
    else if !stored.finalizer then
      if o.patchOk then Report(stored.(finalizer := true), storage, AtOnce, FinalizerAdded, false, false, false, false)
      else Report(stored, storage, WithError, FinalizerAdded, false, false, false, false)
    else
      match o.chart
      case ChartMoved => Report(stored, storage, AtOnce, Moved, false, false, false, false)
      case ChartNotStored => Report(stored, storage, WithError, Moved, false, false, false, false)
      case ChartFailed => Failing(stored, stored, storage, false, Captured(None), o, false)
      case ChartResolved => Resolved(stored, storage, o)
  }

  /** The pass from the point where its chart reference is known. */
  function Resolved(stored: Rel, storage: Storage, o: Calls): Report {
    if !o.readOk || !o.tempOk then Failing(stored, stored, storage, false, Captured(None), o, false)
    else
      match o.fetch
      case SourceNotReady =>
        Report(Written(stored, Project(stored.status, storage, Captured(storage)), o.writeOk), storage,
               if o.writeOk then NoRequeue else WithError, Waiting, false, false, false, false)
      case FetchError => Failing(stored, stored, storage, false, Captured(storage), o, false)
      case Fetched(revision, digest) =>
        Installing(stored, stored.(status := stored.status.(artifactRevision := revision, artifactDigest := digest)),
                   storage, o)
  }
}
