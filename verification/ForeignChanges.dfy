/** Detecting what others did to a release between two passes. */
module ForeignChanges {
  import opened Basics
  import opened Lifecycle
  import opened LifecycleRuns
  import opened PassEffects

  /** Others upgrade without the ownership marker, or uninstall. A reinstall is an upgrade of nothing. */
  predicate IsForeign(e: Event) {
    match e
    case ForeignUpgrade(_, labels) => !(MARKER_KEY in labels && labels[MARKER_KEY] == MARKER_VALUE)
    case ForeignUninstall => true
    case _ => false
  }

  /** The next pass would report a foreign change. */
  predicate Detected(l: Life) {
    DetectForeignChange(l.rel.status.revision, l.storage)
  }

  /** A pass that ended in success, stored its status and read the storage it reports on. */
  predicate RecordedSuccess(l: Life, o: Calls) {
    var r := Reconcile(l.rel, l.storage, o);
    && r.ended == Succeeded && o.writeOk && (r.installed ==> o.refetchOk)
    && r.storage.Some? && r.storage.value.revision >= 1
  }

  /** After such a pass the latest revision carries the marker and is the recorded one. */
  lemma SuccessRecordsLatest(l: Life, o: Calls)
    requires RecordedSuccess(l, o)
    ensures var l' := Step(l, Pass(o));
            && l'.storage.Some? && Marked(l'.storage.value)
            && l'.rel.status.revision == l'.storage.value.revision
  {
  }

  lemma {:induction false} ForeignShows(l: Life, foreign: seq<Event>)
    requires forall e :: e in foreign ==> IsForeign(e)
    ensures Run(l, foreign).rel == l.rel
    ensures foreign != [] ==>
              Run(l, foreign).storage.None? || !Marked(Run(l, foreign).storage.value)
    decreases foreign
  {
    if foreign != [] {
      assert IsForeign(foreign[0]);
      ForeignShows(Step(l, foreign[0]), foreign[1..]);
    }
  }

  /**
   Detection is exact between passes: after any sequence of foreign upgrades, uninstalls and
   reinstalls, the next pass reports a foreign change if and only if the sequence is not empty.
   */
  lemma DetectionIsExact(l: Life, o: Calls, foreign: seq<Event>)
    requires RecordedSuccess(l, o) && forall e :: e in foreign ==> IsForeign(e)
    ensures Detected(Run(Step(l, Pass(o)), foreign)) <==> foreign != []
  {
    SuccessRecordsLatest(l, o);
    ForeignShows(Step(l, Pass(o)), foreign);
  }

  /** Foreign changes of any number and kind are reported if and only if a revision is on record. */
  lemma ReportedIffOnRecord(l: Life, foreign: seq<Event>)
    requires foreign != [] && forall e :: e in foreign ==> IsForeign(e)
    ensures Detected(Run(l, foreign)) <==> l.rel.status.revision != 0
  {
    ForeignShows(l, foreign);
  }

  /** The pass failed with no release passed on to its status: on the chart, the storage read or the directory. */
  predicate FailsEarly(o: Calls) {
    o.chart == ChartFailed || (o.chart == ChartResolved && (!o.readOk || !o.tempOk))
  }

  /** A stored failure keeps a revision on record, unless it came early or there is none to record. */
  lemma FailureRecords(l: Life, o: Calls)
    requires var r := Reconcile(l.rel, l.storage, o); !l.rel.deleting && r.ended == FailedPass && !r.installed
    requires o.writeOk
    ensures Step(l, Pass(o)).rel.status.revision
            == if FailsEarly(o) || l.storage.None? then 0 else l.storage.value.revision
  {
  }

  /**
   Exactly which failures blind the operator. After a stored failing pass that ran no install, foreign
   changes go unreported if and only if it failed on the chart, the storage read or its directory.
   */
  lemma EarlyFailureBlinds(l: Life, o: Calls, foreign: seq<Event>)
    requires var r := Reconcile(l.rel, l.storage, o); !l.rel.deleting && r.ended == FailedPass && !r.installed
    requires o.writeOk && l.storage.Some? && l.storage.value.revision >= 1
    requires foreign != [] && forall e :: e in foreign ==> IsForeign(e)
    ensures Detected(Run(Step(l, Pass(o)), foreign)) <==> !FailsEarly(o)
  {
    FailureRecords(l, o);
    ReportedIffOnRecord(Step(l, Pass(o)), foreign);
  }

  // ----- Taking one's own work for somebody else's -----

  /**
   Exactly when the next pass takes an install of the operator for a foreign change: unless the revision
   it made was both read back and stored, or there was none on record that it exceeds.
   */
  lemma InstallAlarm(l: Life, o: Calls)
    requires var r := Reconcile(l.rel, l.storage, o); r.ended == Succeeded && r.installed
    ensures Detected(Step(l, Pass(o))) <==>
            && !(o.writeOk && o.refetchOk)
            && l.rel.status.revision != 0 && l.rel.status.revision < NextRevision(l.storage)
  {
  }

  function LatestRevision(storage: Storage): int {
    if storage.None? then 0 else storage.value.revision
  }

  /** What is on record after a pass whose install failed, leaving some storage, before any rollback. */
  function RecordAfterInstall(l: Life, o: Calls): int
    requires o.install.ActionError?
  {
    if o.refetchOk then LatestRevision(o.install.left) else l.rel.status.revision
  }

  /** The same of an install that failed and was not rolled back: it is taken for its own if read back and stored. */
  lemma FailedInstallAlarm(l: Life, o: Calls)
    requires var r := Reconcile(l.rel, l.storage, o); r.ended == FailedPass && r.installed && !r.rollbackTried
    requires o.install.ActionError?
    ensures var recorded := if o.writeOk then RecordAfterInstall(l, o) else l.rel.status.revision;
            Detected(Step(l, Pass(o))) <==> DetectForeignChange(recorded, o.install.left)
    ensures o.install.left.Some? && Marked(o.install.left.value)
            && 1 <= l.rel.status.revision < o.install.left.value.revision ==>
              (Detected(Step(l, Pass(o))) <==> !(o.writeOk && o.refetchOk))
  {
  }

  /** And of a rollback: the revision it made has to be read back and stored. */
  lemma RollbackAlarm(l: Life, o: Calls)
    requires var r := Reconcile(l.rel, l.storage, o); !l.rel.deleting && r.rollbackTried
    requires o.rollback.RolledBack? && o.install.ActionError?
    ensures var made := NextRevision(o.install.left);
            var recorded := if !o.writeOk then l.rel.status.revision
                            else if o.rollback.readOk then made
                            else RecordAfterInstall(l, o);
            Detected(Step(l, Pass(o))) <==> recorded != 0 && recorded < made
    ensures 1 <= l.rel.status.revision <= LatestRevision(o.install.left) ==>
              (Detected(Step(l, Pass(o))) <==> !(o.writeOk && o.rollback.readOk))
  {
    var rel := AtInstall(l.rel, o);
    var counted := rel.(status := CountedStatus(rel, o.install.left, Refetch(o.refetchOk)));
    RollbackComesFrom(l, o);
    StallingRollsBack(l.rel, counted, o.install.left, o, l.rel.status.observedGeneration != l.rel.generation);
  }

  lemma RollbackComesFrom(l: Life, o: Calls)
    requires !l.rel.deleting && Reconcile(l.rel, l.storage, o).rollbackTried && o.install.ActionError?
    ensures o.fetch.Fetched? && AutoRollback(l.rel)
    ensures var rel, reset := AtInstall(l.rel, o), l.rel.status.observedGeneration != l.rel.generation;
            var counted := rel.(status := CountedStatus(rel, o.install.left, Refetch(o.refetchOk)));
            Reconcile(l.rel, l.storage, o) == Stalling(l.rel, counted, o.install.left, true, o, reset)
  {
  }

  lemma StallingRollsBack(stored: Rel, rel: Rel, storage: Storage, o: Calls, reset: bool)
    requires AutoRollback(rel) && o.rollback.RolledBack?
    ensures var r := Stalling(stored, rel, storage, true, o, reset);
            && r.storage.Some? && r.storage.value.revision == NextRevision(storage) && Marked(r.storage.value)
            && r.rel.status.revision == (if !o.writeOk then stored.status.revision
                                         else if o.rollback.readOk then NextRevision(storage)
                                         else rel.status.revision)
  {
  }
}
