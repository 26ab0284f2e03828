/**
 Leaked registrations: which sources list a release besides the ones its status accounts for.
 One write can cause a leak, the one that abandons an ensured candidate, and no other can.
 */
module Leaks {
  import opened Basics
  import opened RefNames
  import opened Protocol
  import opened SourceSafety
  import opened Registrations
  import opened PhaseMachine

  /** The sources q may be listed in between passes. A tight bound leaves the candidate out in Pending. */
  function Bound(st: Status, tight: bool): set<Key> {
    match st.phase
    case Unset => KeyOf(st.lastApplied)
    case Ready => KeyOf(st.lastApplied)
    case Pending => if tight then KeyOf(st.lastApplied) else KeyOf(st.lastApplied) + KeyOf(st.candidate)
    case Disconnecting => KeyOf(st.lastApplied) + KeyOf(st.candidate)
  }

  /** The sources q may still be listed in at this point of its pass. */
  function PassBound(rel: Release, tight: bool): set<Key> {
    var st := rel.status;
    match rel.pc
    case Ensured(ref) => Bound(st, tight) + {ref.ToKey()}
    case CleanGet(_, ToCleared) => KeyOf(st.candidate) * Bound(st, tight)
    case CleanUpdate(_, _, ToCleared) => KeyOf(st.candidate) * Bound(st, tight)
    case CleanDelete(_, _, _, ToCleared) => {}
    case CleanDelete(ref, _, _, _) => Bound(st, tight) - {ref.ToKey()}
    case Commit(next) =>
      if next == CLEARED then {}
      else if next.phase == Ready then KeyOf(st.candidate)
      else Bound(st, tight)
    case _ => Bound(st, tight)
  }

  ghost predicate Contained(w: World, q: string, tight: bool)
    requires q in w.releases
  {
    Listing(w, q) <= PassBound(w.releases[q], tight)
  }

  /** No source lists q but the ones its status accounts for. */
  ghost predicate NoLeak(w: World, q: string)
    requires q in w.releases
  {
    Listing(w, q) <= KeyOf(w.releases[q].status.lastApplied) + KeyOf(w.releases[q].status.candidate)
  }

  /**
   The write that abandons a candidate already ensured: in Pending, the candidate is replaced
   while its source, which is not also the last applied one, lists the release.
   */
  predicate Abandons(w: World, s: Step, q: string) {
    && s == Do(q) && q in w.releases && w.releases[q].pc.Commit?
    && var st, next := w.releases[q].status, w.releases[q].pc.next;
    && st.phase == Pending && next.phase == Pending
    && st.candidate.Some? && Lists(w, st.candidate.value.ToKey(), q)
    && st.candidate.value.ToKey() !in KeyOf(st.lastApplied) + KeyOf(next.candidate)
  }

  /** One source that lists q after a call of q's pass: it was accounted for before, and still is. */
  lemma AccountedFor(api: Api, w: World, q: string, tight: bool, k: Key)
    requires q in w.releases && Shape(api, w.releases[q]) && !Abandons(w, Do(q), q)
    requires (Lists(w, k, q) && !Drops(w, Do(q), q, k)) || Adds(w, Do(q), q, k)
    requires Lists(w, k, q) ==> k in PassBound(w.releases[q], tight)
    requires !w.releases[q].pc.CleanGet? && !w.releases[q].pc.CleanUpdate? && !w.releases[q].pc.CleanDelete?
    ensures k in PassBound(NextRelease(w, q), tight)
  {
  }

  lemma AccountedForCleaning(api: Api, w: World, q: string, tight: bool, k: Key)
    requires q in w.releases && Shape(api, w.releases[q])
    requires Lists(w, k, q) && !Drops(w, Do(q), q, k) && k in PassBound(w.releases[q], tight)
    requires w.releases[q].pc.CleanGet? || w.releases[q].pc.CleanUpdate? || w.releases[q].pc.CleanDelete?
    ensures k in PassBound(NextRelease(w, q), tight)
  {
    var st, ref, after := w.releases[q].status, w.releases[q].pc.ref, w.releases[q].pc.after;
    assert CleanFits(w.releases[q], ref, after);
    if k != ref.ToKey() {
      Proceeds(w.releases[q], ref, after, tight, k);
    }
  }

  /** Once the reference is cleaned, what else q may be listed in fits what the pass does next. */
  lemma Proceeds(rel: Release, ref: Ref, after: After, tight: bool, k: Key)
    requires CleanFits(rel, ref, after) && k in Bound(rel.status, tight) && k != ref.ToKey()
    requires after == ToCleared ==> k in KeyOf(rel.status.candidate)
    ensures k in PassBound(rel.(pc := Proceed(rel.status, after)), tight)
  {
  }

  lemma ContainedCall(api: Api, w: World, q: string, tight: bool)
    requires Orderly(w) && q in w.releases && Shape(api, w.releases[q]) && Contained(w, q, tight)
    requires !Abandons(w, Do(q), q)
    ensures Contained(Apply(w, Do(q)), q, tight)
  {
    ListingStep(w, Do(q));
    assert ValidName(q);
    var w' := Apply(w, Do(q));
    forall k | k in Listing(w', q) ensures k in PassBound(w'.releases[q], tight) {
      assert Lists(w, k, q) ==> k in Listing(w, q);
      var pc := w.releases[q].pc;
      if pc.CleanGet? || pc.CleanUpdate? || pc.CleanDelete? {
        AccountedForCleaning(api, w, q, tight, k);
      } else {
        AccountedFor(api, w, q, tight, k);
      }
    }
  }

  lemma ContainedStep(api: Api, w: World, s: Step, q: string, tight: bool)
    requires Orderly(w) && Benign(w, s) && q in w.releases && Shape(api, w.releases[q]) && Contained(w, q, tight)
    requires !Abandons(w, s, q)
    requires tight ==> !(s == Abort(q) && w.releases[q].pc.Ensured?)
    ensures q in Apply(w, s).releases && Contained(Apply(w, s), q, tight)
  {
    StepIsFresher(w, s);
    if s == Do(q) {
      ContainedCall(api, w, q, tight);
    } else {
      ListingUnmoved(w, s, q);
      if s == Begin(q) && w.releases[q].pc.Idle? {
        BeginBound(w.releases[q], tight);
      } else if s == Abort(q) && w.releases[q].pc.Ensured? {
        assert w.releases[q].pc.ref.ToKey() in KeyOf(w.releases[q].status.candidate);
      }
    }
  }

  /** Only q's own API calls change which sources list q. */
  lemma ListingUnmoved(w: World, s: Step, q: string)
    requires Orderly(w) && Benign(w, s) && ValidName(q) && s != Do(q)
    ensures Listing(Apply(w, s), q) == Listing(w, q)
  {
    ListingStep(w, s);
    forall k ensures k in Listing(Apply(w, s), q) <==> k in Listing(w, q) {
      assert Lists(Apply(w, s), k, q) <==> Lists(w, k, q);
    }
  }

  lemma BeginBound(rel: Release, tight: bool)
    requires rel.pc.Idle?
    ensures Bound(rel.status, tight) <= PassBound(rel.(pc := FirstCall(rel)), tight)
  {
  }

  lemma AccountedImpliesNoLeak(api: Api, w: World, q: string, tight: bool)
    requires q in w.releases && Shape(api, w.releases[q]) && Contained(w, q, tight)
    ensures NoLeak(w, q)
  {
    var rel := w.releases[q];
    assert PassBound(rel, tight) <= KeyOf(rel.status.lastApplied) + KeyOf(rel.status.candidate);
  }

  /** Between passes the two say the same. */
  lemma NoLeakBetweenPasses(api: Api, w: World, q: string)
    requires q in w.releases && Shape(api, w.releases[q]) && w.releases[q].pc.Idle?
    ensures Contained(w, q, false) <==> NoLeak(w, q)
  {
  }

  /**
   Exactly one kind of step leaks a registration. From a state in which every source that lists
   q is accounted for, a step leads to an unaccounted one if and only if it abandons a candidate.
   */
  lemma AbandoningIsTheOnlyLeak(api: Api, w: World, s: Step, q: string)
    requires Orderly(w) && Benign(w, s) && KeepsApi(api, s, q)
    requires q in w.releases && Shape(api, w.releases[q]) && Contained(w, q, false)
    ensures q in Apply(w, s).releases && (NoLeak(Apply(w, s), q) <==> !Abandons(w, s, q))
    ensures !Abandons(w, s, q) ==> Contained(Apply(w, s), q, false)
  {
    StepIsFresher(w, s);
    ShapeStep(api, w, s, q);
    if Abandons(w, s, q) {
      ListingStep(w, s);
      var lost := w.releases[q].status.candidate.value.ToKey();
      assert Lists(Apply(w, s), lost, q);
      assert lost in Listing(Apply(w, s), q);
    } else {
      ContainedStep(api, w, s, q, false);
      AccountedImpliesNoLeak(api, Apply(w, s), q, false);
    }
  }

  ghost predicate FaithfulRun(api: Api, w: World, steps: seq<Step>, q: string) {
    Along(w, steps, (v, s) => Benign(v, s) && KeepsApi(api, s, q) && !Abandons(v, s, q))
  }

  /** Every run without an abandoning write, spec switches and deletions included, leaks nothing. */
  lemma {:induction false} FaithfulRunsDoNotLeak(api: Api, w: World, steps: seq<Step>, q: string)
    requires Orderly(w) && q in w.releases && Shape(api, w.releases[q]) && Contained(w, q, false)
    requires FaithfulRun(api, w, steps, q)
    ensures var w' := Run(w, steps);
            Orderly(w') && q in w'.releases && Shape(api, w'.releases[q]) && Contained(w', q, false) && NoLeak(w', q)
    decreases steps
  {
    if steps == [] {
      AccountedImpliesNoLeak(api, w, q, false);
    } else {
      ListingStep(w, steps[0]);
      ShapeStep(api, w, steps[0], q);
      AbandoningIsTheOnlyLeak(api, w, steps[0], q);
      FaithfulRunsDoNotLeak(api, Apply(w, steps[0]), steps[1..], q);
    }
  }

  /** The status write after each successful ensure succeeds. */
  predicate EnsureIsRecorded(w: World, s: Step, q: string) {
    !(s == Abort(q) && q in w.releases && w.releases[q].pc.Ensured?)
  }

  ghost predicate RecordedRun(api: Api, w: World, steps: seq<Step>, q: string) {
    Along(w, steps, (v, s) => Benign(v, s) && KeepsApi(api, s, q) && EnsureIsRecorded(v, s, q))
  }

  lemma TightNeverAbandons(api: Api, w: World, s: Step, q: string)
    requires q in w.releases && Shape(api, w.releases[q]) && Contained(w, q, true)
    ensures !Abandons(w, s, q)
  {
  }

  lemma {:induction false} TightRun(api: Api, w: World, steps: seq<Step>, q: string)
    requires Orderly(w) && q in w.releases && Shape(api, w.releases[q]) && Contained(w, q, true)
    requires RecordedRun(api, w, steps, q)
    ensures var w' := Run(w, steps);
            Orderly(w') && q in w'.releases && Shape(api, w'.releases[q]) && Contained(w', q, true)
    decreases steps
  {
    if steps != [] {
      TightNeverAbandons(api, w, steps[0], q);
      ListingStep(w, steps[0]);
      ShapeStep(api, w, steps[0], q);
      ContainedStep(api, w, steps[0], q, true);
      TightRun(api, Apply(w, steps[0]), steps[1..], q);
    }
  }

  /**
   No leaked registrations. In spec.chart runs in which the status write after each successful
   ensure succeeds, the sources listing a release are among its last applied source and its
   candidate, and in Ready they are exactly the last applied source.
   */
  lemma NoLeakedRegistrations(api: Api, start: World, steps: seq<Step>, q: string)
    requires Initial(start) && q in start.releases && Created(api, start.releases[q]) && Listing(start, q) == {}
    requires InlineRun(api, start, steps, q) && RecordedRun(api, start, steps, q)
    ensures var w := Run(start, steps);
            && q in w.releases && NoLeak(w, q)
            && (w.releases[q].status.phase == Ready ==> Listing(w, q) == KeyOf(w.releases[q].status.lastApplied))
  {
    TightRun(api, start, steps, q);
    HoldsRun(api, start, steps, q);
    var w := Run(start, steps);
    AccountedImpliesNoLeak(api, w, q, true);
    var rel := w.releases[q];
    assert forall k :: k in Relied(rel.status) ==> k in Listing(w, q);
    assert rel.status.phase == Ready ==> PassBound(rel, true) <= KeyOf(rel.status.lastApplied);
  }

  /** A release alone in an empty cluster, its finalizer already there. */
  function Newborn(q: string, a: Ref): World {
    World(0, map[], map[q := Release("ns", Inline(a), CLEARED, false, true, false, Idle(NotRun))])
  }

  /** The same release once its first source is created, before the status write that records it. */
  function JustEnsured(q: string, a: Ref): World {
    World(1, map[a.ToKey() := Source(0, 0, Some(map[RELEASE_REFS := q]))],
          map[q := Release("ns", Inline(a), Status(Pending, None, Some(a)), false, true, false, Ensured(a))])
  }

  lemma ReachesEnsured(q: string, a: Ref)
    ensures Run(Newborn(q, a), [Begin(q), Do(q), Begin(q), Do(q), Do(q)]) == JustEnsured(q, a)
  {
    var rel := Newborn(q, a).releases[q];
    var pending := rel.(status := Status(Pending, None, Some(a)), pc := Idle(Advanced));
    var w2 := World(0, map[], map[q := pending]);
    assert Apply(Newborn(q, a), Begin(q)) == World(0, map[], map[q := rel.(pc := Commit(pending.status))]);
    assert Apply(Apply(Newborn(q, a), Begin(q)), Do(q)) == w2;
    assert Apply(w2, Begin(q)) == World(0, map[], map[q := pending.(pc := EnsureGet(a))]);
    assert Apply(Apply(w2, Begin(q)), Do(q)) == World(0, map[], map[q := pending.(pc := EnsureCreate(a))]);
    RunTwo(Newborn(q, a), Begin(q), Do(q), [Begin(q), Do(q), Do(q)]);
    RunTwo(w2, Begin(q), Do(q), [Do(q)]);
    RunCons(Apply(Apply(w2, Begin(q)), Do(q)), Do(q), []);
  }

  /**
   The hypothesis is needed. A pass is cut short between ensuring source a and recording it, the
   spec moves to source b, and the next pass abandons a, which goes on listing the release.
   */
  lemma CrashThenEditLeaks(q: string, a: Ref, b: Ref)
    requires ValidName(q) && a.ToKey() != b.ToKey()
    ensures var w := Run(JustEnsured(q, a), [Abort(q), EditSpec(q, Inline(b)), Begin(q), Do(q)]);
            q in w.releases && !NoLeak(w, q)
  {
    var w0 := JustEnsured(q, a);
    var w2 := Apply(Apply(w0, Abort(q)), EditSpec(q, Inline(b)));
    var w4 := Apply(Apply(w2, Begin(q)), Do(q));
    CreateRegistersOne(q);
    assert a.ToKey() in Listing(w4, q);
    RunTwo(w0, Abort(q), EditSpec(q, Inline(b)), [Begin(q), Do(q)]);
    RunTwo(w2, Begin(q), Do(q), []);
    assert [Abort(q), EditSpec(q, Inline(b)), Begin(q), Do(q)]
        == [Abort(q), EditSpec(q, Inline(b))] + ([Begin(q), Do(q)] + []);
    assert w4.releases[q].status == Status(Pending, None, Some(b));
  }
}
