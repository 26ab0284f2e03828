/**
 The persisted phase machine of one release, over every interleaving with the rest of the
 cluster: which sources list the release, and when one is left listing it for good.
 */
module PhaseMachine {
  import opened Basics
  import opened RefNames
  import opened Protocol
  import opened SourceSafety
  import opened Registrations

  /** The operator's source API group and version, fixed during a run. */
  datatype Api = Api(group: string, version: string)

  ghost predicate Uses(api: Api, ref: Option<Ref>) {
    ref.Some? ==> ref.value.group == api.group && ref.value.version == api.version
  }

  /** Where a pass can stand, given the status it read when it began. */
  ghost predicate Shape(api: Api, rel: Release) {
    var st := rel.status;
    && (rel.spec.Inline? ==> Uses(api, Some(rel.spec.source)))
    && Uses(api, st.lastApplied) && Uses(api, st.candidate)
    && (st.phase == Unset ==> st == CLEARED)
    && (st.phase == Ready ==> st.lastApplied == st.candidate)
    && (st.phase != Unset ==> st.candidate.Some?)
    && match rel.pc
       case EnsureGet(ref) => st.phase == Pending && st.candidate == Some(ref)
       case EnsureCreate(ref) => st.phase == Pending && st.candidate == Some(ref)
       case EnsureUpdate(ref, _) => st.phase == Pending && st.candidate == Some(ref)
       case Ensured(ref) => st.phase == Pending && st.candidate == Some(ref)
       case CleanGet(ref, after) => CleanFits(rel, ref, after)
       case CleanUpdate(ref, _, after) => CleanFits(rel, ref, after)
       case CleanDelete(ref, _, _, after) => CleanFits(rel, ref, after)
       case Commit(next) => CommitFits(api, st, next)
       case DropFinalizer => rel.deleting
       case DeleteHelmChart => st == CLEARED
       case _ => true
  }

  ghost predicate CleanFits(rel: Release, ref: Ref, after: After) {
    var st := rel.status;
    match after
    case ToReady => st.phase == Disconnecting && st.lastApplied == Some(ref) && st.candidate != Some(ref)
    case ToCandidate => st.lastApplied == Some(ref)
    case ToCleared => st.candidate == Some(ref)
    case ToFinalizer => st.lastApplied == Some(ref) && rel.deleting
  }

  /** The status writes of the phase machine: leave or retarget Pending, settle, or clear. */
  ghost predicate CommitFits(api: Api, st: Status, next: Status) {
    || next == CLEARED
    || (st.phase == Disconnecting && next == Status(Ready, st.candidate, st.candidate))
    || (st.phase != Disconnecting && next == Status(Pending, st.lastApplied, next.candidate)
        && next.candidate.Some? && Uses(api, next.candidate))
  }

  /** Spec edits of q name sources of the fixed API. */
  predicate KeepsApi(api: Api, s: Step, q: string) {
    match s
    case EditSpec(r, Inline(ref)) => r == q ==> ref.group == api.group && ref.version == api.version
    case _ => true
  }

  lemma ShapeStep(api: Api, w: World, s: Step, q: string)
    requires q in w.releases && Shape(api, w.releases[q]) && KeepsApi(api, s, q)
    ensures q in Apply(w, s).releases && Shape(api, Apply(w, s).releases[q])
  {
    StepIsFresher(w, s);
    if s == Do(q) {
      ShapeCall(api, w, q);
    } else if s == Begin(q) && w.releases[q].pc.Idle? {
      ShapeBegin(api, w.releases[q]);
    }
  }

  lemma ShapeCall(api: Api, w: World, q: string)
    requires q in w.releases && Shape(api, w.releases[q])
    ensures Shape(api, NextRelease(w, q))
  {
    var pc := w.releases[q].pc;
    if pc.CleanGet? || pc.CleanUpdate? || pc.CleanDelete? {
      ShapeProceeds(api, w.releases[q], pc.ref, pc.after);
    }
  }

  lemma ShapeProceeds(api: Api, rel: Release, ref: Ref, after: After)
    requires Shape(api, rel) && CleanFits(rel, ref, after)
    ensures Shape(api, rel.(pc := Proceed(rel.status, after)))
  {
  }

  lemma ShapeBegin(api: Api, rel: Release)
    requires Shape(api, rel) && rel.pc.Idle?
    ensures Shape(api, rel.(pc := FirstCall(rel)))
  {
  }

  // ----- Which step loses a registration -----

  /** The source q relies on: the candidate in Disconnecting, the last applied one otherwise. */
  function Relied(st: Status): set<Key> {
    if st.phase == Disconnecting then KeyOf(st.candidate) else KeyOf(st.lastApplied)
  }

  /** The source q relies on exists and lists it, and so does a candidate it has just ensured. */
  ghost predicate Backed(w: World, q: string)
    requires q in w.releases
  {
    var rel := w.releases[q];
    && (forall k :: k in Relied(rel.status) ==> Lists(w, k, q))
    && (rel.pc.Ensured? ==> Lists(w, rel.pc.ref.ToKey(), q))
  }

  /** The write that unregisters q from the source it relies on: cleanup for a chartRef or for deletion. */
  predicate Forsakes(w: World, s: Step, q: string) {
    && s == Do(q) && q in w.releases
    && match w.releases[q].pc
       case CleanUpdate(ref, seen, after) =>
         after != ToReady && Current(w, ref, seen.rv) && ref.ToKey() in Relied(w.releases[q].status)
       case _ => false
  }

  /**
   Exactly one kind of step takes a release off the source it relies on, whatever the spec, and
   in deletion too.
   */
  lemma ForsakingIsTheOnlyLoss(api: Api, w: World, s: Step, q: string)
    requires Orderly(w) && Benign(w, s) && q in w.releases && Shape(api, w.releases[q]) && Backed(w, q)
    ensures q in Apply(w, s).releases && (Backed(Apply(w, s), q) <==> !Forsakes(w, s, q))
  {
    StepIsFresher(w, s);
    ListingStep(w, s);
    assert ValidName(q);
    if s == Do(q) {
      BackedCall(api, w, q);
    } else {
      assert forall k :: Lists(Apply(w, s), k, q) <==> Lists(w, k, q);
    }
  }

  lemma BackedCall(api: Api, w: World, q: string)
    requires q in w.releases && Shape(api, w.releases[q]) && Backed(w, q)
    requires forall k ::
      Lists(Apply(w, Do(q)), k, q) <==> (Lists(w, k, q) && !Drops(w, Do(q), q, k)) || Adds(w, Do(q), q, k)
    ensures Backed(Apply(w, Do(q)), q) <==> !Forsakes(w, Do(q), q)
  {
    if w.releases[q].pc.CleanUpdate? {
      BackedUpdate(api, w, q);
    } else {
      BackedOtherwise(api, w, q);
    }
  }

  lemma BackedUpdate(api: Api, w: World, q: string)
    requires q in w.releases && Shape(api, w.releases[q]) && Backed(w, q) && w.releases[q].pc.CleanUpdate?
    requires forall k :: Lists(Apply(w, Do(q)), k, q) <==> Lists(w, k, q) && !Drops(w, Do(q), q, k)
    ensures Backed(Apply(w, Do(q)), q) <==> !Forsakes(w, Do(q), q)
  {
    var pc, st := w.releases[q].pc, w.releases[q].status;
    MovesOn(w, q);
    assert pc.after == ToReady ==> pc.ref.ToKey() !in Relied(st);
  }

  lemma MovesOn(w: World, q: string)
    requires q in w.releases && w.releases[q].pc.CleanUpdate?
    ensures var rel := Apply(w, Do(q)).releases[q]; rel.status == w.releases[q].status && !rel.pc.Ensured?
  {
  }

  lemma BackedOtherwise(api: Api, w: World, q: string)
    requires q in w.releases && Shape(api, w.releases[q]) && Backed(w, q) && !w.releases[q].pc.CleanUpdate?
    requires forall k :: Lists(Apply(w, Do(q)), k, q) <==> Lists(w, k, q) || Adds(w, Do(q), q, k)
    ensures Backed(Apply(w, Do(q)), q)
  {
    ReliesOnNoMore(api, w, q);
    EnsuredAdds(api, w, q);
  }

  /** Its own calls make q rely on a source it did not rely on before only once it has ensured it. */
  lemma ReliesOnNoMore(api: Api, w: World, q: string)
    requires q in w.releases && Shape(api, w.releases[q])
    ensures var st, pc := w.releases[q].status, w.releases[q].pc;
            Relied(NextRelease(w, q).status) <= Relied(st) + if pc.Ensured? then {pc.ref.ToKey()} else {}
  {
  }

  lemma EnsuredAdds(api: Api, w: World, q: string)
    requires q in w.releases && Shape(api, w.releases[q])
    ensures var pc := NextRelease(w, q).pc; pc.Ensured? ==> Adds(w, Do(q), q, pc.ref.ToKey())
  {
  }

  ghost predicate UnforsakenRun(api: Api, w: World, steps: seq<Step>, q: string) {
    Along(w, steps, (v, s) => Benign(v, s) && KeepsApi(api, s, q) && !Forsakes(v, s, q))
  }

  /** Over whole runs, with any spec edits and deletion. */
  lemma {:induction false} UnforsakenRunsStayBacked(api: Api, w: World, steps: seq<Step>, q: string)
    requires Orderly(w) && q in w.releases && Shape(api, w.releases[q]) && Backed(w, q)
    requires UnforsakenRun(api, w, steps, q)
    ensures q in Run(w, steps).releases && Backed(Run(w, steps), q)
    decreases steps
  {
    if steps != [] {
      ListingStep(w, steps[0]);
      ShapeStep(api, w, steps[0], q);
      ForsakingIsTheOnlyLoss(api, w, steps[0], q);
      UnforsakenRunsStayBacked(api, Apply(w, steps[0]), steps[1..], q);
    }
  }

  // ----- The registration invariant -----

  /** spec.chart stays set and the release is not being deleted. */
  predicate StaysInline(s: Step, q: string) {
    match s
    case EditSpec(r, UserRef(_)) => r != q
    case RequestDelete(r) => r != q
    case _ => true
  }

  /** No pass over spec.chart is at a call that gives up the source for good. */
  ghost predicate Staying(rel: Release) {
    && !rel.deleting && !rel.spec.UserRef?
    && match rel.pc
       case CleanGet(_, after) => after == ToReady
       case CleanUpdate(_, _, after) => after == ToReady
       case CleanDelete(_, _, _, after) => after == ToReady
       case Commit(next) => next != CLEARED
       case DropFinalizer => false
       case DeleteHelmChart => false
       case _ => true
  }

  ghost predicate Holds(w: World, q: string)
    requires q in w.releases
  {
    Backed(w, q) && Staying(w.releases[q])
  }

  lemma HoldsStep(api: Api, w: World, s: Step, q: string)
    requires Orderly(w) && Benign(w, s) && q in w.releases && Shape(api, w.releases[q])
    requires StaysInline(s, q) && Holds(w, q)
    ensures q in Apply(w, s).releases && Holds(Apply(w, s), q)
  {
    ForsakingIsTheOnlyLoss(api, w, s, q);
    StepIsFresher(w, s);
    StayingStep(w, s, q);
  }

  lemma StayingStep(w: World, s: Step, q: string)
    requires q in w.releases && q in Apply(w, s).releases && StaysInline(s, q) && Staying(w.releases[q])
    requires Actor(s) != Some(q) ==> Apply(w, s).releases[q] == w.releases[q]
    ensures Staying(Apply(w, s).releases[q])
  {
  }

  /** A release as it is created, with spec.chart of the fixed API. */
  ghost predicate Created(api: Api, rel: Release) {
    && rel.pc.Idle? && rel.status == CLEARED && !rel.deleting
    && rel.spec.Inline? && Uses(api, Some(rel.spec.source))
  }

  /** A cluster with no pass under way and annotations in order. */
  ghost predicate Initial(w: World) {
    Orderly(w) && Quiescent(w)
  }

  ghost predicate InlineRun(api: Api, w: World, steps: seq<Step>, q: string) {
    Along(w, steps, (v, s) => Benign(v, s) && KeepsApi(api, s, q) && StaysInline(s, q))
  }

  lemma {:induction false} HoldsRun(api: Api, w: World, steps: seq<Step>, q: string)
    requires Orderly(w) && q in w.releases && Shape(api, w.releases[q]) && Holds(w, q)
    requires InlineRun(api, w, steps, q)
    ensures q in Run(w, steps).releases && Shape(api, Run(w, steps).releases[q]) && Holds(Run(w, steps), q)
    decreases steps
  {
    if steps != [] {
      ListingStep(w, steps[0]);
      ShapeStep(api, w, steps[0], q);
      HoldsStep(api, w, steps[0], q);
      HoldsRun(api, Apply(w, steps[0]), steps[1..], q);
    }
  }

  /**
   The registration invariant. In every run in which spec.chart stays set, with its contents
   edited at will, and the release is not being deleted, with any call failing and any pass cut
   short: in Ready and in Pending the last applied source, if there is one, exists and lists the
   release; in Disconnecting the candidate does.
   */
  lemma RegistrationInvariant(api: Api, start: World, steps: seq<Step>, q: string)
    requires Initial(start) && q in start.releases && Created(api, start.releases[q])
    requires InlineRun(api, start, steps, q)
    ensures q in Run(start, steps).releases
    ensures var w := Run(start, steps);
            var st := w.releases[q].status;
            && (st.phase in {Ready, Pending} && st.lastApplied.Some? ==> Lists(w, st.lastApplied.value.ToKey(), q))
            && (st.phase == Disconnecting ==> st.candidate.Some? && Lists(w, st.candidate.value.ToKey(), q))
  {
    HoldsRun(api, start, steps, q);
  }

  // ----- The hypotheses are needed -----

  /** Nobody edits or deletes q. */
  predicate Unedited(s: Step, q: string) {
    s != RequestDelete(q) && !(s.EditSpec? && s.name == q)
  }

  /** Ready on source a, which is what the spec asks for. */
  ghost predicate SettledOn(w: World, q: string, a: Ref) {
    && q in w.releases && w.releases[q].status == Status(Ready, Some(a), Some(a))
    && w.releases[q].spec == Inline(a) && !w.releases[q].deleting && w.releases[q].finalizer
    && (w.releases[q].pc.Idle? || w.releases[q].pc.ApplyHelmChart?)
  }

  /** A settled release neither registers nor unregisters, pass after pass. */
  lemma {:induction false} SettledListingStands(w: World, steps: seq<Step>, q: string, a: Ref)
    requires Orderly(w) && SettledOn(w, q, a) && Along(w, steps, (v, s) => Benign(v, s) && Unedited(s, q))
    ensures SettledOn(Run(w, steps), q, a)
    ensures Lists(Run(w, steps), a.ToKey(), q) <==> Lists(w, a.ToKey(), q)
    decreases steps
  {
    if steps != [] {
      StepIsFresher(w, steps[0]);
      ListingStep(w, steps[0]);
      assert ValidName(q);
      SettledListingStands(Apply(w, steps[0]), steps[1..], q, a);
    }
  }

  /** A pass over a chartRef, about to unregister q from the source a it is Ready on. */
  ghost predicate SwitchingAway(w: World, q: string, a: Ref) {
    && Orderly(w) && q in w.releases && w.releases[q].status == Status(Ready, Some(a), Some(a))
    && !w.releases[q].deleting && w.releases[q].finalizer
    && w.releases[q].pc.CleanUpdate? && w.releases[q].pc.after == ToCandidate && w.releases[q].pc.ref == a
    && Current(w, a, w.releases[q].pc.seen.rv)
  }

  /** The pass ends early, with or without its next call made, and the spec is taken back. */
  function CutShortAndTakenBack(w: World, q: string, a: Ref, called: bool): World {
    Apply(Apply(if called then Apply(w, Do(q)) else w, Abort(q)), EditSpec(q, Inline(a)))
  }

  /**
   spec.chart has to stay set. If a switch to chartRef is cut short and taken back, the release is
   Ready on its source again. Through every later run that source lists it if and only if the pass
   was cut short before its unregistering write; otherwise nothing registers it again.
   */
  lemma SwitchBackLosesRegistration(w: World, q: string, a: Ref, called: bool, steps: seq<Step>)
    requires SwitchingAway(w, q, a)
    requires Along(CutShortAndTakenBack(w, q, a, called), steps, (v, s) => Benign(v, s) && Unedited(s, q))
    ensures SettledOn(Run(CutShortAndTakenBack(w, q, a, called), steps), q, a)
    ensures Lists(Run(CutShortAndTakenBack(w, q, a, called), steps), a.ToKey(), q) <==> !called
  {
    assert Remembers(w, q);
    TakenBack(w, q, a, called);
    SettledListingStands(CutShortAndTakenBack(w, q, a, called), steps, q, a);
  }

  lemma TakenBack(w: World, q: string, a: Ref, called: bool)
    requires SwitchingAway(w, q, a) && Remembers(w, q)
    ensures var w' := CutShortAndTakenBack(w, q, a, called);
            Orderly(w') && SettledOn(w', q, a) && (Lists(w', a.ToKey(), q) <==> !called)
  {
    var w1 := if called then Apply(w, Do(q)) else w;
    ListingStep(w, Do(q));
    assert ValidName(q);
    assert Lists(w, a.ToKey(), q);
    assert Lists(w1, a.ToKey(), q) <==> !called;
    assert w1.releases[q] == w.releases[q].(pc := w1.releases[q].pc) && !w1.releases[q].pc.Idle?;
    ListingStep(w1, Abort(q));
    ListingStep(Apply(w1, Abort(q)), EditSpec(q, Inline(a)));
  }

  /**
   The API group has to stay fixed. References are compared with their group, but objects are looked
   up by the configured one. So the unregistering write of Disconnecting leaves the candidate listing
   the release if and only if the two references name different objects.
   */
  lemma GroupChangeUnregistersCandidate(w: World, q: string, candidate: Ref)
    requires Orderly(w) && q in w.releases && w.releases[q].pc.CleanUpdate?
    requires Current(w, w.releases[q].pc.ref, w.releases[q].pc.seen.rv) && Lists(w, candidate.ToKey(), q)
    ensures var last := w.releases[q].pc.ref;
            Lists(Apply(w, Do(q)), candidate.ToKey(), q) <==> candidate.ToKey() != last.ToKey()
  {
    ListingStep(w, Do(q));
    assert ValidName(q);
  }
}
