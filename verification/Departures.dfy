/** How a release leaves its sources: by deletion, and by switching from spec.chart to spec.chartRef. */
module Departures {
  import opened Basics
  import opened RefNames
  import opened Protocol
  import opened SourceSafety
  import opened Registrations
  import opened PhaseMachine
  import opened Leaks

  // ----- Deletion -----

  /** A release being deleted, against its status and the sources that listed it when its delete passes began. */
  ghost predicate Leaving(w: World, q: string, st: Status, before: set<Key>)
    requires q in w.releases
  {
    var rel := w.releases[q];
    var last := KeyOf(st.lastApplied);
    && rel.deleting && rel.status == st
    && Listing(w, q) <= before
    && before - last <= Listing(w, q)
    && (!rel.finalizer ==> Listing(w, q) !! last)
    && match rel.pc
       case Idle(_) => true
       case CleanGet(ref, after) => after == ToFinalizer && st.lastApplied == Some(ref)
       case CleanUpdate(ref, _, after) => after == ToFinalizer && st.lastApplied == Some(ref)
       case CleanDelete(ref, _, _, after) =>
         after == ToFinalizer && st.lastApplied == Some(ref) && ref.ToKey() !in Listing(w, q)
       case DropFinalizer => Listing(w, q) !! last
       case _ => false
  }

  /** The finalizer of q is gone. */
  ghost predicate Released(w: World, q: string) {
    q in w.releases ==> !w.releases[q].finalizer
  }

  lemma LeavingCall(w: World, q: string, st: Status, before: set<Key>)
    requires Orderly(w) && q in w.releases && Leaving(w, q, st, before)
    ensures Leaving(Apply(w, Do(q)), q, st, before)
  {
    var w' := Apply(w, Do(q));
    ListingStep(w, Do(q));
    assert ValidName(q);
    forall k ensures k in Listing(w', q) <==> k in Listing(w, q) && !Drops(w, Do(q), q, k) {
      assert Lists(w', k, q) <==> Lists(w, k, q) && !Drops(w, Do(q), q, k);
    }
  }

  lemma LeavingStep(w: World, s: Step, q: string, st: Status, before: set<Key>)
    requires Orderly(w) && Benign(w, s) && q in w.releases && Leaving(w, q, st, before)
    ensures q in Apply(w, s).releases && Leaving(Apply(w, s), q, st, before)
  {
    StepIsFresher(w, s);
    if s == Do(q) {
      LeavingCall(w, q, st, before);
    } else {
      ListingUnmoved(w, s, q);
    }
  }

  lemma {:induction false} LeavingRun(w: World, steps: seq<Step>, q: string, st: Status, before: set<Key>)
    requires Orderly(w) && q in w.releases && Leaving(w, q, st, before) && Along(w, steps, Benign)
    ensures q in Run(w, steps).releases && Leaving(Run(w, steps), q, st, before)
    decreases steps
  {
    if steps != [] {
      LeavingStep(w, steps[0], q, st, before);
      ListingStep(w, steps[0]);
      LeavingRun(Apply(w, steps[0]), steps[1..], q, st, before);
    }
  }

  /**
   What deletion leaves behind, exactly. However many delete passes fail and are retried and
   whatever else goes on, once the finalizer is gone the sources listing the release are those
   that listed it when its delete passes began, without the last applied one. So nothing is left
   behind if and only if no other source listed it then.
   */
  lemma DeletionLeavesExactly(w: World, steps: seq<Step>, q: string)
    requires Orderly(w) && q in w.releases && Along(w, steps, Benign)
    requires w.releases[q].deleting && w.releases[q].finalizer && w.releases[q].pc.Idle?
    requires Released(Run(w, steps), q)
    ensures Listing(Run(w, steps), q) == Listing(w, q) - KeyOf(w.releases[q].status.lastApplied)
    ensures Listing(Run(w, steps), q) == {} <==> Listing(w, q) <= KeyOf(w.releases[q].status.lastApplied)
  {
    LeavingRun(w, steps, q, w.releases[q].status, Listing(w, q));
  }

  /** Deletion that begins in Ready, with no registration leaked before, leaves nothing behind. */
  lemma DeletionFromReadyLeavesNothing(api: Api, w: World, steps: seq<Step>, q: string)
    requires Orderly(w) && q in w.releases && Along(w, steps, Benign)
    requires w.releases[q].deleting && w.releases[q].finalizer && w.releases[q].pc.Idle?
    requires w.releases[q].status.phase == Ready && Shape(api, w.releases[q]) && NoLeak(w, q)
    requires Released(Run(w, steps), q)
    ensures Listing(Run(w, steps), q) == {}
  {
    DeletionLeavesExactly(w, steps, q);
  }

  /**
   Deletion cleans only the last applied source. A release deleted in Disconnecting leaves its
   candidate listing it, for every such state and every run.
   */
  lemma DeletionInDisconnectingLeaks(w: World, steps: seq<Step>, q: string, candidate: Ref)
    requires Orderly(w) && q in w.releases && Along(w, steps, Benign)
    requires w.releases[q].deleting && w.releases[q].finalizer && w.releases[q].pc.Idle?
    requires w.releases[q].status.phase == Disconnecting && w.releases[q].status.candidate == Some(candidate)
    requires Lists(w, candidate.ToKey(), q) && candidate.ToKey() !in KeyOf(w.releases[q].status.lastApplied)
    requires Released(Run(w, steps), q)
    ensures candidate.ToKey() in Listing(Run(w, steps), q)
  {
    DeletionLeavesExactly(w, steps, q);
    assert candidate.ToKey() in Listing(w, q);
  }

  /** A run none of whose steps is p's leaves p's registrations as they are. */
  lemma {:induction false} BystandersUntouched(w: World, steps: seq<Step>, p: string)
    requires Orderly(w) && ValidName(p) && Along(w, steps, (v, s) => Benign(v, s) && Actor(s) != Some(p))
    ensures Listing(Run(w, steps), p) == Listing(w, p)
    decreases steps
  {
    if steps != [] {
      OthersUntouched(w, steps[0], p);
      ListingStep(w, steps[0]);
      BystandersUntouched(Apply(w, steps[0]), steps[1..], p);
    }
  }

  // ----- Switching to chartRef -----

  /** The pass that gives up the former spec.chart sources, at any of its calls. */
  ghost predicate Unwinding(w: World, q: string)
    requires q in w.releases
  {
    var rel := w.releases[q];
    match rel.pc
    case CleanGet(_, after) => after == ToCandidate || after == ToCleared
    case CleanUpdate(_, _, after) => after == ToCandidate || after == ToCleared
    case CleanDelete(_, _, _, after) => after == ToCandidate || after == ToCleared
    case Commit(next) => next == CLEARED
    case DeleteHelmChart => rel.status == CLEARED && Listing(w, q) == {}
    case Idle(Failed) => true
    case Idle(Advanced) => rel.status == CLEARED && Listing(w, q) == {} && !rel.helmChart
    case _ => false
  }

  lemma UnwindingStep(api: Api, w: World, s: Step, q: string)
    requires Orderly(w) && Benign(w, s) && q in w.releases && Shape(api, w.releases[q])
    requires Contained(w, q, false) && Unwinding(w, q) && s != Begin(q)
    ensures q in Apply(w, s).releases && Unwinding(Apply(w, s), q) && !Abandons(w, s, q)
  {
    StepIsFresher(w, s);
    if s == Do(q) {
      UnwindingCall(api, w, q);
    } else {
      ListingUnmoved(w, s, q);
    }
  }

  lemma UnwindingCall(api: Api, w: World, q: string)
    requires Orderly(w) && q in w.releases && Shape(api, w.releases[q])
    requires Contained(w, q, false) && Unwinding(w, q)
    ensures Unwinding(Apply(w, Do(q)), q)
  {
    var pc := w.releases[q].pc;
    if pc.Commit? || pc.DeleteHelmChart? || pc.Idle? {
      SameListing(w, q);
    } else {
      StaysUnwinding(w, q);
    }
  }

  /** Calls that write no source change no listing. */
  lemma SameListing(w: World, q: string)
    requires q in w.releases
    requires var pc := w.releases[q].pc; pc.Commit? || pc.DeleteHelmChart? || pc.Idle?
    ensures Listing(Apply(w, Do(q)), q) == Listing(w, q)
  {
    assert Apply(w, Do(q)).store == w.store;
  }

  /** After a cleanup call the pass is still cleaning, or about to write the cleared status, or has failed. */
  lemma StaysUnwinding(w: World, q: string)
    requires q in w.releases
    requires var pc := w.releases[q].pc;
             (pc.CleanGet? || pc.CleanUpdate? || pc.CleanDelete?) && (pc.after == ToCandidate || pc.after == ToCleared)
    ensures Unwinding(Apply(w, Do(q)), q)
  {
  }

  ghost predicate OnePass(api: Api, w: World, steps: seq<Step>, q: string) {
    Along(w, steps, (v, s) => Benign(v, s) && KeepsApi(api, s, q) && s != Begin(q))
  }

  lemma {:induction false} UnwindingRun(api: Api, w: World, steps: seq<Step>, q: string)
    requires Orderly(w) && q in w.releases && Shape(api, w.releases[q])
    requires Contained(w, q, false) && Unwinding(w, q) && OnePass(api, w, steps, q)
    ensures q in Run(w, steps).releases && Unwinding(Run(w, steps), q)
    decreases steps
  {
    if steps != [] {
      UnwindingStep(api, w, steps[0], q);
      AbandoningIsTheOnlyLeak(api, w, steps[0], q);
      ShapeStep(api, w, steps[0], q);
      ListingStep(w, steps[0]);
      UnwindingRun(api, Apply(w, steps[0]), steps[1..], q);
    }
  }

  /**
   Switching to chartRef unwinds completely. From any state without a leaked registration, in any
   phase, one pass that ends without a failure leaves the release listed nowhere, its three source
   fields cleared and its HelmChart removed, whatever the rest of the cluster does meanwhile; and
   the next pass resolves to the user's reference with its namespace defaulted.
   */
  lemma SwitchingToChartRefUnwinds(api: Api, w: World, steps: seq<Step>, q: string)
    requires Orderly(w) && q in w.releases && Shape(api, w.releases[q]) && NoLeak(w, q)
    requires var rel := w.releases[q];
             && rel.pc.Idle? && rel.finalizer && !rel.deleting && rel.spec.UserRef?
             && (rel.status.lastApplied.Some? || rel.status.candidate.Some?)
    requires OnePass(api, Apply(w, Begin(q)), steps, q)
    requires var w' := Run(Apply(w, Begin(q)), steps); q in w'.releases ==> w'.releases[q].pc == Idle(Advanced)
    ensures var w' := Run(Apply(w, Begin(q)), steps);
            && q in w'.releases && w'.releases[q].status == CLEARED
            && Listing(w', q) == {} && !w'.releases[q].helmChart
            && var rel := w'.releases[q];
            (rel.spec.UserRef? && !rel.deleting && rel.finalizer ==>
               var ref := rel.spec.chartRef;
               var namespace := if ref.namespace == "" then rel.namespace else ref.namespace;
               Apply(w', Begin(q)).releases[q].pc
               == Idle(Resolved(UserObject(ChartRef(ref.kind, ref.name, namespace)))))
  {
    NoLeakBetweenPasses(api, w, q);
    AbandoningIsTheOnlyLeak(api, w, Begin(q), q);
    ShapeStep(api, w, Begin(q), q);
    ListingStep(w, Begin(q));
    UnwindingRun(api, Apply(w, Begin(q)), steps, q);
  }

  /** Nothing is left to unwind: the source fields are cleared and the spec is a chartRef. */
  ghost predicate Unwound(w: World, q: string, helmChart: bool) {
    && q in w.releases && w.releases[q].helmChart == helmChart && w.releases[q].status == CLEARED
    && w.releases[q].spec.UserRef? && !w.releases[q].deleting && w.releases[q].finalizer && w.releases[q].pc.Idle?
  }

  /** From there no pass over the chartRef makes or removes the HelmChart. */
  lemma {:induction false} UnwoundStays(w: World, steps: seq<Step>, q: string, helmChart: bool)
    requires Unwound(w, q, helmChart) && Along(w, steps, (v, s) => Unedited(s, q))
    ensures Unwound(Run(w, steps), q, helmChart)
    decreases steps
  {
    if steps != [] {
      StepIsFresher(w, steps[0]);
      UnwoundStays(Apply(w, steps[0]), steps[1..], q, helmChart);
    }
  }

  /**
   The HelmChart is removed only by the pass that cleared the source fields. If that one call is made
   it is gone for good, and if the call fails it is there for good, through every later pass.
   */
  lemma HelmChartCleanupIsNotRetried(w: World, s: Step, steps: seq<Step>, q: string)
    requires q in w.releases && w.releases[q].pc == DeleteHelmChart && w.releases[q].helmChart
    requires w.releases[q].status == CLEARED && w.releases[q].spec.UserRef?
    requires !w.releases[q].deleting && w.releases[q].finalizer
    requires s == Do(q) || s == Abort(q)
    requires Along(Apply(w, s), steps, (v, t) => Unedited(t, q))
    ensures q in Run(Apply(w, s), steps).releases
    ensures Run(Apply(w, s), steps).releases[q].helmChart <==> s == Abort(q)
  {
    UnwoundStays(Apply(w, s), steps, q, s == Abort(q));
  }
}
