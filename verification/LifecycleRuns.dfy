/** What whole runs of reconcile passes keep. */
module LifecycleRuns {
  import opened Basics
  import opened Conditions
  import opened Lifecycle
  import Backoff

  datatype Event =
    | Pass(calls: Calls)
    | ForeignUpgrade(state: string, labels: map<string, string>)
    | ForeignUninstall
    | Edit(suspended: bool, install: Option<Install>, labels: map<string, string>, interval: int)
    | Delete

  /** A release with the history its properties speak of. */
  datatype Life = Life(
    rel: Rel,
    storage: Storage,
    deployed: bool,         // the operator installed the chart and has not uninstalled it since
    failedSince: nat,       // failing passes since the failure counter was last stored as reset
    settled: bool)          // some pass has stored a success or a failure

  function Step(l: Life, e: Event): Life {
    match e
    case Pass(o) =>
      var r := Reconcile(l.rel, l.storage, o);
      Life(r.rel, r.storage,
           if r.uninstalled then false else l.deployed || r.installed,
           FailedSince(l, r, o),
           l.settled || (o.writeOk && (r.ended == Succeeded || r.ended == FailedPass)))
    case ForeignUpgrade(state, labels) => l.(storage := Some(Stored(NextRevision(l.storage), state, labels)))
    case ForeignUninstall => l.(storage := None)
    case Edit(suspended, install, labels, interval) =>
      l.(rel := l.rel.(suspended := suspended, install := install, labels := labels, interval := interval,
                       generation := l.rel.generation + 1))
    case Delete => l.(rel := l.rel.(deleting := true))
  }

  function FailedSince(l: Life, r: Report, o: Calls): nat {
    if r.ended == Succeeded && o.writeOk then 0
    else if r.ended == FailedPass then (if o.writeOk && r.reset then 1 else l.failedSince + 1)
    else l.failedSince
  }

  function Run(l: Life, events: seq<Event>): Life
    decreases events
  {
    if events == [] then l else Run(Step(l, events[0]), events[1..])
  }

  lemma {:induction false} RunSnoc(l: Life, events: seq<Event>, i: nat)
    requires i < |events|
    ensures Run(l, events[..i + 1]) == Step(Run(l, events[..i]), events[i])
    decreases i
  {
    assert events[..i + 1][1..] == events[1..][..i];
    if i > 0 {
      assert events[..i][1..] == events[1..][..i - 1];
      RunSnoc(Step(l, events[0]), events[1..], i - 1);
    }
  }

  ghost predicate Fresh(l: Life) {
    && l.rel.status.conditions == [] && l.rel.status.failures == 0
    && !l.deployed && l.failedSince == 0 && !l.settled
  }

  // ----- One pass, summed up -----

  /** Everything of the stored Release but its status. */
  ghost predicate OnlyStatus(before: Rel, after: Rel) {
    after == before.(status := after.status)
  }

  /** A pass that stored a status with one more failure than the counter in memory said. */
  ghost predicate FailureStored(stored: Rel, r: Report, counter: nat) {
    && r.rel.status.failures == counter + 1
    && r.rel.status.observedGeneration == stored.generation
    && r.rel.status.conditions == (if counter + 1 > MaxRetries(stored)
                                   then StalledConditions(stored.generation, stored.status.conditions)
                                   else RetryConditions(stored.generation, stored.status.conditions))
    && r.requeue == (if counter + 1 > MaxRetries(stored) then NoRequeue else After(Backoff.Delay(counter + 1)))
  }

  ghost predicate SuccessStored(stored: Rel, r: Report) {
    && r.rel.status.failures == 0
    && r.rel.status.observedGeneration == stored.generation
    && r.rel.status.conditions == SuccessConditions(stored.generation, stored.status.conditions)
  }

  /** What a pass over a release that is not being deleted comes to. */
  ghost predicate Sums(stored: Rel, o: Calls, r: Report) {
    && OnlyStatus(stored, r.rel.(finalizer := stored.finalizer))
    && (r.rel.finalizer == stored.finalizer || (r.ended == FinalizerAdded && r.rel.finalizer))
    && !r.uninstalled
    && (r.installed ==> stored.finalizer && r.ended in {Succeeded, FailedPass})
    && (!o.writeOk ==> r.rel.status == stored.status)
    && match r.ended
       case FailedPass =>
         var counter := if r.reset then 0 else stored.status.failures;
         && (r.reset ==> stored.status.observedGeneration != stored.generation)
         && (o.writeOk ==> FailureStored(stored, r, counter))
         && (r.rollbackTried ==> r.installed && AutoRollback(stored) && counter + 1 > MaxRetries(stored))
       case Succeeded => (o.writeOk ==> SuccessStored(stored, r)) && !r.rollbackTried
       case Deletion => false
       case _ => r.rel.status.conditions == stored.status.conditions
                 && r.rel.status.failures == stored.status.failures
                 && r.rel.status.observedGeneration == stored.status.observedGeneration
                 && !r.rollbackTried
  }

  /** The Release in memory: the stored one, up to fields no property here reads. */
  ghost predicate InMemory(stored: Rel, rel: Rel, reset: bool) {
    && OnlyStatus(stored, rel)
    && rel.status.conditions == stored.status.conditions
    && rel.status.failures == (if reset then 0 else stored.status.failures)
    && (reset ==> stored.status.observedGeneration != stored.generation)
  }

  /** What projecting and rolling back leave alone. */
  ghost predicate SameCounters(a: Status, b: Status) {
    a.failures == b.failures && a.observedGeneration == b.observedGeneration && a.conditions == b.conditions
  }

  lemma RollbackKeeps(rel: Rel, storage: Storage, rollback: Rollback)
    ensures SameCounters(AfterRollback(rel, storage, rollback).0, rel.status)
  {
  }

  lemma CountedKeeps(rel: Rel, storage: Storage, read: Read)
    ensures var counted := CountedStatus(rel, storage, read);
            && counted.failures == rel.status.failures + 1 && counted.observedGeneration == rel.generation
            && counted.conditions == rel.status.conditions
  {
  }

  lemma FailingSums(stored: Rel, rel: Rel, storage: Storage, attempted: bool, read: Read, o: Calls, reset: bool)
    requires stored.finalizer && InMemory(stored, rel, reset)
    ensures Sums(stored, o, Failing(stored, rel, storage, attempted, read, o, reset))
  {
    var counted := CountedStatus(rel, storage, read);
    CountedKeeps(rel, storage, read);
    RollbackKeeps(rel.(status := counted), storage, o.rollback);
    var r := Failing(stored, rel, storage, attempted, read, o, reset);
    assert r.ended == FailedPass && r.reset == reset && r.installed == attempted && !r.uninstalled;
    assert MaxRetries(rel) == MaxRetries(stored) && AutoRollback(rel) == AutoRollback(stored);
    if o.writeOk {
      assert r.rel == stored.(status := r.rel.status);
      assert FailureStored(stored, r, rel.status.failures);
    } else {
      assert r.rel == stored;
    }
  }

  lemma SucceedingSums(stored: Rel, rel: Rel, storage: Storage, read: Read, o: Calls, installed: bool, reset: bool)
    requires stored.finalizer && InMemory(stored, rel, reset)
    ensures Sums(stored, o, Succeeding(stored, rel, storage, read, o, installed, reset))
  {
  }

  lemma InstallingSums(stored: Rel, rel: Rel, storage: Storage, o: Calls)
    requires stored.finalizer && InMemory(stored, rel, false)
    requires rel.status.observedGeneration == stored.status.observedGeneration
    ensures Sums(stored, o, Installing(stored, rel, storage, o))
  {
    var reset := rel.status.observedGeneration != rel.generation;
    PlannedSums(stored, if reset then rel.(status := rel.status.(failures := 0)) else rel, storage, o, reset);
  }

  lemma UnchangedSums(stored: Rel, rel: Rel, storage: Storage, o: Calls, reset: bool)
    requires stored.finalizer && InMemory(stored, rel, reset)
    ensures Sums(stored, o, Unchanged(stored, rel, storage, o, reset))
  {
    if storage.Some? && !Marked(storage.value) {
      if o.stampOk {
        SucceedingSums(stored, rel, Some(Stamped(storage.value)), Captured(storage), o, false, reset);
      } else {
        FailingSums(stored, rel, storage, false, Captured(storage), o, reset);
      }
    } else {
      SucceedingSums(stored, rel, storage, Captured(storage), o, false, reset);
    }
  }

  lemma PlannedSums(stored: Rel, rel: Rel, storage: Storage, o: Calls, reset: bool)
    requires stored.finalizer && InMemory(stored, rel, reset)
    ensures Sums(stored, o, Planned(stored, rel, storage, o, reset))
  {
    if !o.valuesOk || o.plan.PlanError? || (o.plan.Changes? && !o.optionsOk) {
      FailingSums(stored, rel, storage, false, Captured(storage), o, reset);
    } else if o.plan.NoChanges? {
      UnchangedSums(stored, rel, storage, o, reset);
    } else {
      match o.install
      case ActionError(left) => FailingSums(stored, rel, left, true, Refetch(o.refetchOk), o, reset);
      case Done(state) =>
        SucceedingSums(stored, rel.(status := rel.status.(lastAction := "install")),
                       Deployed(storage, state, rel.labels), Refetch(o.refetchOk), o, true, reset);
    }
  }

  lemma ResolvedSums(stored: Rel, storage: Storage, o: Calls)
    requires stored.finalizer
    ensures Sums(stored, o, Resolved(stored, storage, o))
  {
    FailingSums(stored, stored, storage, false, Captured(None), o, false);
    FailingSums(stored, stored, storage, false, Captured(storage), o, false);
    if o.fetch.Fetched? {
      var st := stored.status.(artifactRevision := o.fetch.revision, artifactDigest := o.fetch.digest);
      InstallingSums(stored, stored.(status := st), storage, o);
    }
  }

  lemma PassSums(stored: Rel, storage: Storage, o: Calls)
    requires !stored.deleting
    ensures Sums(stored, o, Reconcile(stored, storage, o))
  {
    if !stored.suspended && stored.finalizer {
      FailingSums(stored, stored, storage, false, Captured(None), o, false);
      ResolvedSums(stored, storage, o);
    }
  }

  // ----- The finalizer -----

  /** The finalizer goes only in a pass that uninstalled and cleaned up the chart source. */
  lemma FinalizerGoesLast(l: Life, e: Event)
    requires l.rel.finalizer && !Step(l, e).rel.finalizer
    ensures e.Pass? && l.rel.deleting && e.calls.uninstall.Done? && e.calls.cleanupOk && e.calls.patchOk
    ensures !Step(l, e).deployed && Step(l, e).storage == None
  {
    if e.Pass? && !l.rel.deleting {
      PassSums(l.rel, l.storage, e.calls);
    }
  }

  lemma {:induction false} DeployedRun(l: Life, events: seq<Event>)
    requires l.deployed ==> l.rel.finalizer
    ensures Run(l, events).deployed ==> Run(l, events).rel.finalizer
    decreases events
  {
    if events != [] {
      FinalizerStep(l, events[0]);
      DeployedRun(Step(l, events[0]), events[1..]);
    }
  }

  lemma FinalizerStep(l: Life, e: Event)
    requires l.deployed ==> l.rel.finalizer
    ensures Step(l, e).deployed ==> Step(l, e).rel.finalizer
  {
    if e.Pass? && !l.rel.deleting {
      PassSums(l.rel, l.storage, e.calls);
    }
  }

  /**
   Deployed implies finalizer. In every run, with suspensions, edits, foreign changes, lost status
   writes and failed uninstalls, a release whose chart the operator installed and has not since
   uninstalled still carries the finalizer.
   */
  lemma DeployedImpliesFinalizer(l: Life, events: seq<Event>)
    requires Fresh(l)
    ensures Run(l, events).deployed ==> Run(l, events).rel.finalizer
  {
    DeployedRun(l, events);
  }

  // ----- Conditions -----

  ghost predicate Exclusive(l: Life) {
    && OnePerKind(l.rel.status.conditions)
    && TrueCount(l.rel.status.conditions) <= 1
    && (l.settled ==> TrueCount(l.rel.status.conditions) == 1)
    && !l.rel.deleting
  }

  lemma OneTrue(conditions: seq<Condition>, a: Condition, b: Condition, c: Condition)
    requires {a.kind, b.kind, c.kind} == {READY, RECONCILING, STALLED}
    requires a.kind != b.kind && a.kind != c.kind && b.kind != c.kind
    requires (a.holds && !b.holds && !c.holds) || (!a.holds && b.holds && !c.holds)
    ensures TrueCount(SetThree(conditions, a, b, c)) == 1
    ensures IsTrue(SetThree(conditions, a, b, c), if a.holds then a.kind else b.kind)
    ensures OnePerKind(conditions) ==> OnePerKind(SetThree(conditions, a, b, c))
  {
    AfterSetThree(conditions, a, b, c, a.kind);
    AfterSetThree(conditions, a, b, c, b.kind);
    AfterSetThree(conditions, a, b, c, c.kind);
  }

  lemma ThreeFlags(conditions: seq<Condition>, generation: int)
    ensures forall after ::
              after in {SuccessConditions(generation, conditions), RetryConditions(generation, conditions),
                        StalledConditions(generation, conditions)} ==>
              TrueCount(after) == 1 && (OnePerKind(conditions) ==> OnePerKind(after))
    ensures IsTrue(SuccessConditions(generation, conditions), READY)
    ensures IsTrue(RetryConditions(generation, conditions), RECONCILING)
    ensures IsTrue(StalledConditions(generation, conditions), STALLED)
  {
    OneTrue(conditions, Condition(READY, true, generation, "InstallSucceeded"),
            Condition(RECONCILING, false, generation, "Succeeded"), Condition(STALLED, false, generation, "Succeeded"));
    OneTrue(conditions, Condition(READY, false, generation, "InstallFailed"),
            Condition(RECONCILING, true, generation, "RetryPending"),
            Condition(STALLED, false, generation, "RetryPending"));
    OneTrue(conditions, Condition(STALLED, true, generation, "RetriesExhausted"),
            Condition(READY, false, generation, "InstallFailed"),
            Condition(RECONCILING, false, generation, "RetriesExhausted"));
  }

  lemma ExclusiveStep(l: Life, e: Event)
    requires Exclusive(l) && e != Delete
    ensures Exclusive(Step(l, e))
  {
    if e.Pass? {
      PassSums(l.rel, l.storage, e.calls);
      ThreeFlags(l.rel.status.conditions, l.rel.generation);
    }
  }

  lemma {:induction false} ExclusiveRun(l: Life, events: seq<Event>)
    requires Exclusive(l) && Delete !in events
    ensures Exclusive(Run(l, events))
    decreases events
  {
    if events != [] {
      ExclusiveStep(l, events[0]);
      ExclusiveRun(Step(l, events[0]), events[1..]);
    }
  }

  /**
   Condition exclusivity. In every status reached without a deletion there is at most one entry
   per type and at most one of Ready, Reconciling and Stalled is true, and exactly one once a pass
   has stored a success or a failure.
   */
  lemma ConditionsExclude(l: Life, events: seq<Event>)
    requires Fresh(l) && !l.rel.deleting && Delete !in events
    ensures var l' := Run(l, events);
            && OnePerKind(l'.rel.status.conditions)
            && TrueCount(l'.rel.status.conditions) <= 1
            && (l'.settled ==> TrueCount(l'.rel.status.conditions) == 1)
  {
    ExclusiveRun(l, events);
  }

  /** Some pass of the run got its announcement of the uninstall stored. */
  ghost predicate Announced(events: seq<Event>) {
    exists e :: e in events && e.Pass? && e.calls.markOk
  }

  /** A release in deletion: nothing changes its conditions but the announcement of the uninstall. */
  ghost predicate InDeletion(l: Life, ready: bool, reconciling: bool, stalled: bool, announced: bool) {
    && l.rel.deleting && (!announced ==> l.rel.finalizer)
    && IsTrue(l.rel.status.conditions, READY) == ready
    && IsTrue(l.rel.status.conditions, RECONCILING) == (reconciling || announced)
    && IsTrue(l.rel.status.conditions, STALLED) == stalled
  }

  lemma InDeletionStep(l: Life, e: Event, ready: bool, reconciling: bool, stalled: bool, announced: bool)
    requires InDeletion(l, ready, reconciling, stalled, announced)
    ensures InDeletion(Step(l, e), ready, reconciling, stalled, announced || (e.Pass? && e.calls.markOk))
  {
    var c := Condition(RECONCILING, true, l.rel.generation, "Uninstalling");
    FlagAfterSet(l.rel.status.conditions, c, READY);
    FlagAfterSet(l.rel.status.conditions, c, RECONCILING);
    FlagAfterSet(l.rel.status.conditions, c, STALLED);
  }

  lemma {:induction false} InDeletionRun(
    l: Life, events: seq<Event>, ready: bool, reconciling: bool, stalled: bool, announced: bool)
    requires InDeletion(l, ready, reconciling, stalled, announced)
    ensures InDeletion(Run(l, events), ready, reconciling, stalled, announced || Announced(events))
    decreases events
  {
    if events != [] {
      var first := events[0].Pass? && events[0].calls.markOk;
      InDeletionStep(l, events[0], ready, reconciling, stalled, announced);
      InDeletionRun(Step(l, events[0]), events[1..], ready, reconciling, stalled, announced || first);
      assert events == [events[0]] + events[1..];
      assert first ==> events[0] in events;
      assert Announced(events) <==> first || Announced(events[1..]);
    }
  }

  /**
   Exactly when deletion keeps the conditions exclusive: through every run after the deletion, unless
   an uninstall was announced of a release that was Ready or Stalled. Such a release is Reconciling as
   well from then on.
   */
  lemma DeletionMixesConditions(l: Life, events: seq<Event>)
    requires Exclusive(l) && l.rel.finalizer
    ensures var before, after := l.rel.status.conditions, Run(Step(l, Delete), events).rel.status.conditions;
            TrueCount(after) <= 1 <==> !Announced(events) || (!IsTrue(before, READY) && !IsTrue(before, STALLED))
  {
    var before := l.rel.status.conditions;
    InDeletionRun(Step(l, Delete), events,
                  IsTrue(before, READY), IsTrue(before, RECONCILING), IsTrue(before, STALLED), false);
  }

  // ----- The retry budget -----

  /** Consecutive failing passes whose status writes are stored. */
  ghost predicate FailingPasses(l: Life, passes: seq<Calls>)
    decreases passes
  {
    passes != [] ==>
      && passes[0].writeOk && Reconcile(l.rel, l.storage, passes[0]).ended == FailedPass
      && FailingPasses(Step(l, Pass(passes[0])), passes[1..])
  }

  function RunPasses(l: Life, passes: seq<Calls>): Life
    decreases passes
  {
    if passes == [] then l else RunPasses(Step(l, Pass(passes[0])), passes[1..])
  }

  /** A counter that no failing pass will reset: it is zero, or this generation was seen. */
  ghost predicate CounterStands(l: Life) {
    !l.rel.deleting && (l.rel.status.failures == 0 || l.rel.status.observedGeneration == l.rel.generation)
  }

  lemma {:induction false} CounterCounts(l: Life, passes: seq<Calls>)
    requires CounterStands(l) && FailingPasses(l, passes)
    ensures var l' := RunPasses(l, passes);
            && CounterStands(l') && OnlyStatus(l.rel, l'.rel)
            && l'.rel.status.failures == l.rel.status.failures + |passes|
    decreases passes
  {
    if passes != [] {
      PassSums(l.rel, l.storage, passes[0]);
      CounterCounts(Step(l, Pass(passes[0])), passes[1..]);
    }
  }

  /**
   The retry budget. With a fixed generation and stored status writes, from a reset counter, the
   i-th consecutive failing pass schedules retry i with Reconciling true while i is within the
   retries, and otherwise stalls with nothing scheduled.
   */
  lemma RetryBudget(l: Life, passes: seq<Calls>, last: Calls)
    requires !l.rel.deleting && l.rel.status.failures == 0 && FailingPasses(l, passes)
    requires last.writeOk && Reconcile(RunPasses(l, passes).rel, RunPasses(l, passes).storage, last).ended == FailedPass
    ensures var l' := RunPasses(l, passes);
            var i, r := |passes| + 1, Reconcile(l'.rel, l'.storage, last);
            var retries := if l.rel.install.Some? then l.rel.install.value.retries else 0;
            if i <= retries
            then r.requeue == After(Backoff.Delay(i)) && IsTrue(r.rel.status.conditions, RECONCILING)
            else r.requeue == NoRequeue && IsTrue(r.rel.status.conditions, STALLED)
  {
    CounterCounts(l, passes);
    var l' := RunPasses(l, passes);
    PassSums(l'.rel, l'.storage, last);
    ThreeFlags(l'.rel.status.conditions, l'.rel.generation);
  }

  /**
   Within the retries a positive delay is scheduled exactly while the 64-bit product keeps its sign
   bit clear, so with thirty retries or more the thirtieth is announced and never comes.
   */
  lemma RetryComesIffSignClear(l: Life, passes: seq<Calls>, last: Calls)
    requires !l.rel.deleting && l.rel.status.failures == 0 && FailingPasses(l, passes)
    requires last.writeOk && Reconcile(RunPasses(l, passes).rel, RunPasses(l, passes).storage, last).ended == FailedPass
    requires |passes| + 1 <= MaxRetries(l.rel)
    ensures var r := Reconcile(RunPasses(l, passes).rel, RunPasses(l, passes).storage, last);
            && r.requeue.After? && (r.requeue.nanoseconds > 0 <==> Backoff.SignClear(|passes| + 1))
            && (|passes| + 1 <= 29 ==> r.requeue.nanoseconds > 0)
            && (|passes| + 1 == 30 ==> r.requeue.nanoseconds < 0)
  {
    var i := |passes| + 1;
    RetryBudget(l, passes, last);
    Backoff.DelayIsExact(i);
    if i <= 29 {
      Backoff.DelayUpTo29(i);
    } else if i == 30 {
      Backoff.ThirtiethIsNegative();
    }
  }

  /** The pass got as far as reconcileInstall. */
  predicate ReachesInstall(o: Calls) {
    o.chart == ChartResolved && o.readOk && o.tempOk && o.fetch.Fetched?
  }

  /** A failing pass resets the counter if and only if it gets that far in a generation not seen before. */
  lemma ResetIff(stored: Rel, storage: Storage, o: Calls)
    requires !stored.deleting && Reconcile(stored, storage, o).ended == FailedPass
    ensures Reconcile(stored, storage, o).reset <==>
            ReachesInstall(o) && stored.status.observedGeneration != stored.generation
  {
  }

  /**
   Whether a new generation gets a retry budget of its own. After an edit, the n-th failing pass in a
   row leaves the counter at n if and only if the first of them reached reconcileInstall or there was
   nothing on the counter. Otherwise the failures of the former generation count against the new one.
   */
  lemma NewGenerationStartsOver(l: Life, passes: seq<Calls>)
    requires !l.rel.deleting && l.rel.status.observedGeneration != l.rel.generation
    requires passes != [] && FailingPasses(l, passes)
    ensures CounterStands(RunPasses(l, passes)) && OnlyStatus(l.rel, RunPasses(l, passes).rel)
    ensures RunPasses(l, passes).rel.status.failures
            == |passes| + if ReachesInstall(passes[0]) then 0 else l.rel.status.failures
    ensures RunPasses(l, passes).rel.status.failures == |passes| <==>
            ReachesInstall(passes[0]) || l.rel.status.failures == 0
  {
    PassSums(l.rel, l.storage, passes[0]);
    ResetIff(l.rel, l.storage, passes[0]);
    CounterCounts(Step(l, Pass(passes[0])), passes[1..]);
  }

  lemma StallsIff(l: Life, o: Calls)
    requires CounterStands(l) && o.writeOk && Reconcile(l.rel, l.storage, o).ended == FailedPass
    ensures IsTrue(Reconcile(l.rel, l.storage, o).rel.status.conditions, STALLED) <==>
            l.rel.status.failures + 1 > MaxRetries(l.rel)
  {
    PassSums(l.rel, l.storage, o);
    ThreeFlags(l.rel.status.conditions, l.rel.generation);
    assert TrueCount(RetryConditions(l.rel.generation, l.rel.status.conditions)) == 1;
  }

  /** So a generation whose first failure came early stalls by the number of failures it inherited too soon. */
  lemma InheritedFailuresStall(l: Life, passes: seq<Calls>, last: Calls)
    requires !l.rel.deleting && l.rel.status.observedGeneration != l.rel.generation
    requires passes != [] && FailingPasses(l, passes) && last.writeOk
    requires Reconcile(RunPasses(l, passes).rel, RunPasses(l, passes).storage, last).ended == FailedPass
    ensures var r := Reconcile(RunPasses(l, passes).rel, RunPasses(l, passes).storage, last);
            var inherited := if ReachesInstall(passes[0]) then 0 else l.rel.status.failures;
            IsTrue(r.rel.status.conditions, STALLED) <==> |passes| + 1 > MaxRetries(l.rel) - inherited
  {
    NewGenerationStartsOver(l, passes);
    StallsIff(RunPasses(l, passes), last);
  }

  lemma {:induction false} CounterBounded(l: Life, events: seq<Event>)
    requires l.rel.status.failures <= l.failedSince
    ensures Run(l, events).rel.status.failures <= Run(l, events).failedSince
    decreases events
  {
    if events != [] {
      CounterStep(l, events[0]);
      CounterBounded(Step(l, events[0]), events[1..]);
    }
  }

  lemma CounterStep(l: Life, e: Event)
    requires l.rel.status.failures <= l.failedSince
    ensures Step(l, e).rel.status.failures <= Step(l, e).failedSince
  {
    if e.Pass? && !l.rel.deleting {
      PassSums(l.rel, l.storage, e.calls);
    }
  }

  /**
   Auto-rollback is never early. Even with lost status writes, it is tried only in a pass that ran
   an install, and only when that pass is at least the (retries + 1)-th failing one since the
   counter was last stored as reset.
   */
  lemma RollbackOnlyAfterBudget(l: Life, events: seq<Event>, o: Calls)
    requires Fresh(l)
    requires var l' := Run(l, events); Reconcile(l'.rel, l'.storage, o).rollbackTried
    ensures var l' := Run(l, events);
            && Reconcile(l'.rel, l'.storage, o).installed
            && AutoRollback(l'.rel)
            && l'.failedSince + 1 >= MaxRetries(l'.rel) + 1
  {
    CounterBounded(l, events);
    var l' := Run(l, events);
    if !l'.rel.deleting {
      PassSums(l'.rel, l'.storage, o);
    }
  }
}
