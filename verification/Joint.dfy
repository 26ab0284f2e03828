/**
 One release in both models at once: its sources, call by call, and its life cycle, pass by pass. A
 pass of the life cycle takes the outcomes of its source calls from a pass of the transition system.
 */
module Joint {
  import opened Basics
  import opened Protocol
  import opened SourceSafety
  import opened Registrations
  import opened PhaseMachine
  import opened Leaks
  import opened Departures
  import opened Convergence
  import opened Cleanups
  import opened Progress
  import PassEffects
  import L = Lifecycle
  import R = LifecycleRuns

  datatype Both = Both(world: World, life: R.Life)

  datatype Happening =
    | Elsewhere(steps: seq<Step>)                     // the rest of the cluster, between passes
    | StorageChange(event: R.Event)                   // somebody else upgrades or uninstalls
    | Edited(spec: Spec, event: R.Event)
    | DeleteRequested
    | Whole(calls: L.Calls, steps: seq<Step>)         // a pass, with all that the cluster does meanwhile

  function Steps(h: Happening, q: string): seq<Step> {
    match h
    case Elsewhere(steps) => steps
    case StorageChange(_) => []
    case Edited(spec, _) => [EditSpec(q, spec)]
    case DeleteRequested => [RequestDelete(q)]
    case Whole(_, steps) => steps
  }

  function Lived(l: R.Life, h: Happening): R.Life {
    match h
    case Elsewhere(_) => l
    case StorageChange(event) => R.Step(l, event)
    case Edited(_, event) => R.Step(l, event)
    case DeleteRequested => R.Step(l, R.Delete)
    case Whole(calls, _) => R.Step(l, R.Pass(calls))
  }

  function Next(b: Both, h: Happening, q: string): Both {
    Both(Run(b.world, Steps(h, q)), Lived(b.life, h))
  }

  function RunBoth(b: Both, happenings: seq<Happening>, q: string): Both
    decreases happenings
  {
    if happenings == [] then b else RunBoth(Next(b, happenings[0], q), happenings[1..], q)
  }

  // ----- How the two fit together -----

  /** The pass gets as far as its source calls: the finalizer patch, resolveChartRef, or the cleanup of a delete. */
  predicate MakesSourceCalls(rel: L.Rel, o: L.Calls) {
    if rel.deleting then rel.finalizer && o.markOk && o.tempOk && o.uninstall.Done? && o.recordOk
    else !rel.suspended
  }

  /** The outcomes that the life cycle takes as given are how the pass over the sources ended. */
  predicate Agrees(rel: L.Rel, o: L.Calls, last: Outcome) {
    if rel.deleting then o.cleanupOk && o.patchOk <==> last != Failed
    else if !rel.finalizer then o.patchOk <==> last != Failed
    else match o.chart
         case ChartResolved => last.Resolved?
         case ChartMoved => last == Advanced
         case _ => last == Failed
  }

  /** The steps of everybody else. */
  ghost predicate Others(steps: seq<Step>, q: string) {
    forall i :: 0 <= i < |steps| ==> Actor(steps[i]) != Some(q)
  }

  /** What may happen while a pass of q goes on: its own calls, and everybody else's. */
  ghost predicate Ongoing(steps: seq<Step>, q: string) {
    forall i :: 0 <= i < |steps| ==> Actor(steps[i]) == Some(q) ==> steps[i] == Do(q) || steps[i] == Abort(q)
  }

  /** A whole pass of q over its sources. */
  ghost predicate OwnPass(w: World, steps: seq<Step>, q: string) {
    && steps != [] && steps[0] == Begin(q) && Ongoing(steps[1..], q)
    && q in Run(w, steps).releases && Run(w, steps).releases[q].pc.Idle?
  }

  ghost predicate Fits(b: Both, h: Happening, q: string) {
    match h
    case Elsewhere(steps) => Others(steps, q)
    case StorageChange(event) => event.ForeignUpgrade? || event.ForeignUninstall?
    case Edited(_, event) => event.Edit?
    case DeleteRequested => true
    case Whole(o, steps) =>
      if MakesSourceCalls(b.life.rel, o)
      then OwnPass(b.world, steps, q) && Agrees(b.life.rel, o, Run(b.world, steps).releases[q].pc.last)
      else Others(steps, q)
  }

  ghost predicate FitsRun(b: Both, happenings: seq<Happening>, q: string, ok: (World, Step) -> bool)
    decreases happenings
  {
    happenings != [] ==>
      && Fits(b, happenings[0], q) && Along(b.world, Steps(happenings[0], q), ok)
      && FitsRun(Next(b, happenings[0], q), happenings[1..], q, ok)
  }

  /** Between passes the two models agree on what they share. */
  ghost predicate Joined(b: Both, q: string) {
    && q in b.world.releases && b.world.releases[q].pc.Idle?
    && b.world.releases[q].finalizer == b.life.rel.finalizer
    && b.world.releases[q].deleting == b.life.rel.deleting
  }

  // ----- The finalizer in a pass over the sources -----

  /** The release in a pass that began with rel0, as far as its finalizer is concerned. */
  ghost predicate Fate(rel0: Release, rel: Release) {
    && rel.deleting == rel0.deleting
    && match rel.pc
       case Idle(last) =>
         rel.finalizer == if rel0.deleting then rel0.finalizer && last == Failed else rel0.finalizer || last != Failed
       case AddFinalizer => !rel0.deleting && rel.finalizer == rel0.finalizer
       case DropFinalizer => rel0.deleting && rel.finalizer && rel0.finalizer
       case CleanGet(_, after) => FateOfCleanup(rel0, rel, after)
       case CleanUpdate(_, _, after) => FateOfCleanup(rel0, rel, after)
       case CleanDelete(_, _, _, after) => FateOfCleanup(rel0, rel, after)
       case _ => !rel0.deleting && rel.finalizer && rel0.finalizer
  }

  ghost predicate FateOfCleanup(rel0: Release, rel: Release, after: After) {
    (after == ToFinalizer <==> rel0.deleting) && rel.finalizer && rel0.finalizer
  }

  lemma FateBegins(rel: Release)
    requires rel.pc.Idle?
    ensures Fate(rel, rel.(pc := FirstCall(rel)))
  {
  }

  lemma FateCall(w: World, q: string, rel0: Release)
    requires q in w.releases && Fate(rel0, w.releases[q])
    ensures Fate(rel0, NextRelease(w, q))
  {
  }

  lemma {:induction false} FateRun(w: World, steps: seq<Step>, q: string, rel0: Release)
    requires q in w.releases && Fate(rel0, w.releases[q]) && Ongoing(steps, q)
    ensures q in Run(w, steps).releases && Fate(rel0, Run(w, steps).releases[q])
    decreases steps
  {
    if steps != [] {
      StepIsFresher(w, steps[0]);
      assert Actor(steps[0]) == Some(q) ==> steps[0] == Do(q) || steps[0] == Abort(q);
      if steps[0] == Do(q) {
        FateCall(w, q, rel0);
      }
      FateRun(Apply(w, steps[0]), steps[1..], q, rel0);
    }
  }

  lemma {:induction false} OthersRun(w: World, steps: seq<Step>, q: string)
    requires q in w.releases && Others(steps, q)
    ensures q in Run(w, steps).releases && Run(w, steps).releases[q] == w.releases[q]
    decreases steps
  {
    if steps != [] {
      StepIsFresher(w, steps[0]);
      OthersRun(Apply(w, steps[0]), steps[1..], q);
    }
  }

  /** The finalizer in a pass of the life cycle. */
  lemma FinalizerInPass(rel: L.Rel, storage: L.Storage, o: L.Calls)
    ensures var after := L.Reconcile(rel, storage, o).rel;
            && after.deleting == rel.deleting
            && after.finalizer == (if !MakesSourceCalls(rel, o) then rel.finalizer
                                   else if rel.deleting then !(o.cleanupOk && o.patchOk)
                                   else rel.finalizer || o.patchOk)
  {
    if !rel.deleting {
      R.PassSums(rel, storage, o);
    }
  }

  /** The two models keep in step. */
  lemma JoinedStep(b: Both, h: Happening, q: string)
    requires Joined(b, q) && Fits(b, h, q)
    ensures Joined(Next(b, h, q), q)
  {
    match h
    case Elsewhere(steps) => OthersRun(b.world, steps, q);
    case StorageChange(_) =>
    case Edited(spec, _) => RunOne(b.world, EditSpec(q, spec));
    case DeleteRequested => RunOne(b.world, RequestDelete(q));
    case Whole(o, steps) =>
      FinalizerInPass(b.life.rel, b.life.storage, o);
      if MakesSourceCalls(b.life.rel, o) {
        PassFate(b.world, steps, q);
      } else {
        OthersRun(b.world, steps, q);
      }
  }

  lemma RunOne(w: World, s: Step)
    ensures Run(w, [s]) == Apply(w, s)
  {
    RunCons(w, s, []);
    assert [s] + [] == [s];
  }

  lemma PassFate(w: World, steps: seq<Step>, q: string)
    requires q in w.releases && w.releases[q].pc.Idle? && OwnPass(w, steps, q)
    ensures Fate(w.releases[q], Run(w, steps).releases[q])
  {
    FateBegins(w.releases[q]);
    FateRun(Apply(w, Begin(q)), steps[1..], q, w.releases[q]);
  }

  // ----- The next pass -----

  /** A pass that adds the finalizer ends with it added, or failed. */
  ghost predicate Adding(rel: Release) {
    rel.pc == AddFinalizer || rel.pc == Idle(Advanced) || rel.pc == Idle(Failed)
  }

  lemma {:induction false} AddingRun(w: World, steps: seq<Step>, q: string)
    requires q in w.releases && Adding(w.releases[q]) && Ongoing(steps, q)
    ensures q in Run(w, steps).releases && Adding(Run(w, steps).releases[q])
    decreases steps
  {
    if steps != [] {
      StepIsFresher(w, steps[0]);
      AddingRun(Apply(w, steps[0]), steps[1..], q);
    }
  }

  /**
   The next pass is asked for at once if and only if the pass over the sources advanced: the phase machine
   never stops short of being settled for want of a pass.
   */
  lemma AskedAgainIffAdvanced(b: Both, o: L.Calls, steps: seq<Step>, q: string)
    requires Joined(b, q) && Fits(b, Whole(o, steps), q) && !b.life.rel.deleting && !b.life.rel.suspended
    ensures L.Reconcile(b.life.rel, b.life.storage, o).requeue == L.AtOnce <==>
            Run(b.world, steps).releases[q].pc.last == Advanced
  {
    PassEffects.RequeuesAtOnceIff(b.life.rel, b.life.storage, o);
    if !b.life.rel.finalizer {
      AddingRun(Apply(b.world, Begin(q)), steps[1..], q);
    }
  }

  /** Left alone over spec.chart, the next pass is asked for at once if and only if the release is not settled yet. */
  lemma AskedAgainUntilSettled(api: Api, b: Both, o: L.Calls, q: string, expected: Ref)
    requires Joined(b, q) && Fits(b, Whole(o, LonePass(q)), q) && !b.life.rel.suspended
    requires AtRest(api, b.world, q, expected)
    ensures L.Reconcile(b.life.rel, b.life.storage, o).requeue == L.AtOnce <==>
            Distance(b.world.releases[q].status, expected) > 0
  {
    var rel, begun := b.world.releases[q], Apply(b.world, Begin(q));
    AskedAgainIffAdvanced(b, o, LonePass(q), q);
    LonePassIsClean(api, b.world, q, expected);
    MidwayBegins(api, rel, expected);
    MidwayRun(api, begun, LonePass(q)[1..], q, rel.status, expected);
  }

  // ----- Gone means gone -----

  /** Along a joint run, what the first model's steps and the second one's events keep. */
  lemma {:induction false} JoinedRun(b: Both, happenings: seq<Happening>, q: string, ok: (World, Step) -> bool)
    requires Joined(b, q) && FitsRun(b, happenings, q, ok)
    requires b.life.deployed ==> b.life.rel.finalizer
    ensures var b' := RunBoth(b, happenings, q);
            Joined(b', q) && (b'.life.deployed ==> b'.world.releases[q].finalizer)
    decreases happenings
  {
    if happenings != [] {
      var h := happenings[0];
      JoinedStep(b, h, q);
      match h {
        case Elsewhere(_) =>
        case StorageChange(event) => R.FinalizerStep(b.life, event);
        case Edited(_, event) => R.FinalizerStep(b.life, event);
        case DeleteRequested => R.FinalizerStep(b.life, R.Delete);
        case Whole(o, _) => R.FinalizerStep(b.life, R.Pass(o));
      }
      JoinedRun(Next(b, h, q), happenings[1..], q, ok);
    }
  }

  /** All the steps of a joint run, in a row. */
  function AllSteps(happenings: seq<Happening>, q: string): seq<Step> {
    if happenings == [] then [] else Steps(happenings[0], q) + AllSteps(happenings[1..], q)
  }

  lemma {:induction false} AlongConcat(w: World, first: seq<Step>, second: seq<Step>, ok: (World, Step) -> bool)
    requires Along(w, first, ok) && Along(Run(w, first), second, ok)
    ensures Along(w, first + second, ok)
    decreases first
  {
    if first == [] {
      assert first + second == second;
    } else {
      assert (first + second)[1..] == first[1..] + second;
      AlongConcat(Apply(w, first[0]), first[1..], second, ok);
    }
  }

  lemma {:induction false} AllStepsRun(b: Both, happenings: seq<Happening>, q: string, ok: (World, Step) -> bool)
    requires FitsRun(b, happenings, q, ok)
    ensures Run(b.world, AllSteps(happenings, q)) == RunBoth(b, happenings, q).world
    ensures Along(b.world, AllSteps(happenings, q), ok)
    decreases happenings
  {
    if happenings != [] {
      var first := Steps(happenings[0], q);
      AllStepsRun(Next(b, happenings[0], q), happenings[1..], q, ok);
      RunConcat(b.world, first, AllSteps(happenings[1..], q));
      AlongConcat(b.world, first, AllSteps(happenings[1..], q), ok);
    }
  }

  /**
   Once the finalizer is gone, in whatever phase the deletion began and after any failed uninstalls, lost
   writes and retried cleanups, the operator has uninstalled what it had installed, and the sources that
   list the release are those that did when its deletion began, without the last applied one.
   */
  lemma GoneLeavesExactly(b: Both, happenings: seq<Happening>, q: string)
    requires Joined(b, q) && Orderly(b.world) && b.life.rel.deleting && b.life.rel.finalizer
    requires FitsRun(b, happenings, q, Benign)
    requires !RunBoth(b, happenings, q).life.rel.finalizer
    ensures var b' := RunBoth(b, happenings, q);
            && !b'.life.deployed
            && Listing(b'.world, q) == Listing(b.world, q) - KeyOf(b.world.releases[q].status.lastApplied)
  {
    JoinedRun(b, happenings, q, Benign);
    AllStepsRun(b, happenings, q, Benign);
    DeletionLeavesExactly(b.world, AllSteps(happenings, q), q);
  }

  /** So deletion from Ready with no registration leaked leaves nothing: gone means gone. */
  lemma GoneMeansGone(api: Api, b: Both, happenings: seq<Happening>, q: string)
    requires Joined(b, q) && Orderly(b.world) && b.life.rel.deleting && b.life.rel.finalizer
    requires var rel := b.world.releases[q]; rel.status.phase == Ready && Shape(api, rel) && NoLeak(b.world, q)
    requires FitsRun(b, happenings, q, Benign)
    requires !RunBoth(b, happenings, q).life.rel.finalizer
    ensures var b' := RunBoth(b, happenings, q); !b'.life.deployed && Listing(b'.world, q) == {}
  {
    GoneLeavesExactly(b, happenings, q);
  }

  // ----- What is installed comes from a source that lists the release -----

  /** The release is created in both models, with spec.chart. */
  ghost predicate CreatedBoth(api: Api, b: Both, q: string) {
    && Initial(b.world) && q in b.world.releases && Created(api, b.world.releases[q])
    && R.Fresh(b.life) && !b.life.rel.deleting && b.life.rel.finalizer == b.world.releases[q].finalizer
  }

  ghost predicate InlineBoth(api: Api, b: Both, happenings: seq<Happening>, q: string) {
    FitsRun(b, happenings, q, (v, s) => Benign(v, s) && KeepsApi(api, s, q) && StaysInline(s, q))
  }

  /** The source that spec.chart names is last applied, and lists the release. */
  ghost predicate DeploysFromListed(w: World, q: string) {
    && q in w.releases && w.releases[q].spec.Inline? && w.releases[q].status.phase == Ready
    && w.releases[q].status.lastApplied == Some(w.releases[q].spec.source)
    && Lists(w, w.releases[q].spec.source.ToKey(), q)
  }

  lemma ResolvedPass(api: Api, w: World, steps: seq<Step>, q: string)
    requires Orderly(w) && q in w.releases && Shape(api, w.releases[q]) && Holds(w, q)
    requires w.releases[q].pc.Idle? && w.releases[q].finalizer && OwnPass(w, steps, q)
    requires Along(w, steps, (v, s) => Benign(v, s) && KeepsApi(api, s, q) && StaysInline(s, q))
    requires Run(w, steps).releases[q].pc.last.Resolved?
    ensures DeploysFromListed(Run(w, steps), q)
  {
    var begun := Apply(w, Begin(q));
    HoldsRun(api, w, steps, q);
    StepIsFresher(w, Begin(q));
    if w.releases[q].spec.Unbuildable? {
      StaysFailed(begun, steps[1..], q);
    } else {
      var expected := w.releases[q].spec.source;
      MidwayBegins(api, w.releases[q], expected);
      OngoingIsRest(api, begun, steps[1..], q);
      MidwayRun(api, begun, steps[1..], q, w.releases[q].status, expected);
      DistanceShrinks(w.releases[q].status, expected);
    }
  }

  lemma {:induction false} StaysFailed(w: World, steps: seq<Step>, q: string)
    requires q in w.releases && w.releases[q].pc == Idle(Failed) && Ongoing(steps, q)
    ensures q in Run(w, steps).releases && Run(w, steps).releases[q].pc == Idle(Failed)
    decreases steps
  {
    if steps != [] {
      StepIsFresher(w, steps[0]);
      StaysFailed(Apply(w, steps[0]), steps[1..], q);
    }
  }

  lemma {:induction false} OngoingIsRest(api: Api, w: World, steps: seq<Step>, q: string)
    requires Ongoing(steps, q)
    requires Along(w, steps, (v, s) => Benign(v, s) && KeepsApi(api, s, q) && StaysInline(s, q))
    ensures Rest(api, w, steps, q)
    decreases steps
  {
    if steps != [] {
      assert WithinPass(steps[0], q);
      OngoingIsRest(api, Apply(w, steps[0]), steps[1..], q);
    }
  }

  /** Only a pass that resolved its chart installs. */
  lemma InstallNeedsChart(rel: L.Rel, storage: L.Storage, o: L.Calls)
    requires L.Reconcile(rel, storage, o).installed
    ensures !rel.deleting && !rel.suspended && rel.finalizer && o.chart == L.ChartResolved
  {
  }

  /**
   What is installed comes from a source that lists the release. In every joint run with spec.chart set,
   whatever fails or is edited: a pass that runs an install has ended its source part Ready on the
   source that the spec names, and that source exists and lists the release.
   */
  lemma InstallsFromListedSource(
    api: Api, start: Both, happenings: seq<Happening>, o: L.Calls, steps: seq<Step>, q: string)
    requires CreatedBoth(api, start, q) && InlineBoth(api, start, happenings, q)
    requires var b := RunBoth(start, happenings, q);
             && Fits(b, Whole(o, steps), q)
             && Along(b.world, steps, (v, s) => Benign(v, s) && KeepsApi(api, s, q) && StaysInline(s, q))
             && L.Reconcile(b.life.rel, b.life.storage, o).installed
    ensures DeploysFromListed(Next(RunBoth(start, happenings, q), Whole(o, steps), q).world, q)
  {
    var b := RunBoth(start, happenings, q);
    var inline := (v, s) => Benign(v, s) && KeepsApi(api, s, q) && StaysInline(s, q);
    JoinedRun(start, happenings, q, inline);
    AllStepsRun(start, happenings, q, inline);
    HoldsRun(api, start.world, AllSteps(happenings, q), q);
    InlineKeepsOrder(api, start.world, AllSteps(happenings, q), q);
    InstallNeedsChart(b.life.rel, b.life.storage, o);
    ResolvedPass(api, b.world, steps, q);
  }

  lemma {:induction false} InlineKeepsOrder(api: Api, w: World, steps: seq<Step>, q: string)
    requires Orderly(w) && InlineRun(api, w, steps, q)
    ensures Orderly(Run(w, steps))
    decreases steps
  {
    if steps != [] {
      ListingStep(w, steps[0]);
      InlineKeepsOrder(api, Apply(w, steps[0]), steps[1..], q);
    }
  }
}
