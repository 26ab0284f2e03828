/**
 Passes that are left alone and clean up sources: what becomes of every source, in each of the three
 kinds of pass that unregister a release.
 */
module Cleanups {
  import opened Basics
  import opened RefNames
  import opened Protocol
  import opened Registrations
  import opened Deletions

  type Store = map<Key, Source>

  /** The pass of q makes its next n calls, with nothing in between. */
  function Calls(q: string, n: nat): (steps: seq<Step>)
    ensures forall i :: 0 <= i < |steps| ==> steps[i] == Do(q)
  {
    if n == 0 then [] else [Do(q)] + Calls(q, n - 1)
  }

  /** One whole pass of q that nothing interrupts; a pass that is over makes no more calls. */
  function LonePass(q: string): seq<Step> {
    [Begin(q)] + Calls(q, 8)
  }

  // ----- Calls in a row -----

  lemma {:induction false} SplitCalls(w: World, q: string, m: nat, n: nat)
    requires m <= n
    ensures Run(w, Calls(q, n)) == Run(Run(w, Calls(q, m)), Calls(q, n - m))
    decreases m
  {
    if m > 0 {
      RunCons(w, Do(q), Calls(q, n - 1));
      RunCons(w, Do(q), Calls(q, m - 1));
      SplitCalls(Apply(w, Do(q)), q, m - 1, n - 1);
    }
  }

  lemma {:induction false} CallsAreBenign(w: World, q: string, n: nat)
    ensures Along(w, Calls(q, n), Benign)
    decreases n
  {
    if n > 0 {
      CallsAreBenign(Apply(w, Do(q)), q, n - 1);
      assert Calls(q, n)[1..] == Calls(q, n - 1);
    }
  }

  lemma CallsKeepOrder(w: World, q: string, n: nat)
    requires Orderly(w)
    ensures Orderly(Run(w, Calls(q, n)))
  {
    CallsAreBenign(w, q, n);
    OrderlyRun(w, Calls(q, n));
  }

  /** A pass that is over makes no more calls. */
  lemma {:induction false} IdleStays(w: World, q: string, n: nat)
    requires q in w.releases && w.releases[q].pc.Idle?
    ensures Run(w, Calls(q, n)) == w
  {
    if n > 0 {
      assert Apply(w, Do(q)) == w;
      RunCons(w, Do(q), Calls(q, n - 1));
      IdleStays(w, q, n - 1);
    }
  }

  // ----- One cleanup -----

  /** The sources after q is taken off source k. */
  function Freed(store: Store, clock: nat, q: string, k: Key): Store {
    if k !in store || q !in Names(store[k].annotations) then store
    else if Left(store[k], q) == [] then store - {k}
    else store[k := Source(store[k].uid, clock, WithNames(store[k].annotations, Left(store[k], q)))]
  }

  /** The same, with the release moved on to its next call. */
  ghost predicate Cleaned(w: World, w': World, q: string, ref: Ref, after: After)
    requires q in w.releases
  {
    && w'.store == Freed(w.store, w.clock, q, ref.ToKey())
    && w'.releases == w.releases[q := w.releases[q].(pc := Proceed(w.releases[q].status, after))]
  }

  /** The world after the unregistering update, the pass at its next call. */
  function Updated(w: World, q: string, k: Key, pc: Pc): World
    requires q in w.releases && k in w.store
  {
    var seen := w.store[k];
    SetPc(World(w.clock + 1, w.store[k := Source(seen.uid, w.clock, WithNames(seen.annotations, Left(seen, q)))],
                w.releases), q, pc)
  }

  function Removed(w: World, q: string, k: Key, pc: Pc): World
    requires q in w.releases
  {
    SetPc(World(w.clock, w.store - {k}, w.releases), q, pc)
  }

  lemma UpdateCall(w: World, q: string, ref: Ref, after: After)
    requires Orderly(w) && q in w.releases && Lists(w, ref.ToKey(), q)
    requires w.releases[q].pc == CleanUpdate(ref, w.store[ref.ToKey()], after)
    ensures var k, seen := ref.ToKey(), w.store[ref.ToKey()];
            Apply(w, Do(q)) == Updated(w, q, k, if Left(seen, q) == [] then CleanDelete(ref, seen.uid, w.clock, after)
                                                else Proceed(w.releases[q].status, after))
  {
    UnregisterRefinesRemove(w.store[ref.ToKey()].annotations, q);
    NameAfterUnregister(w.store[ref.ToKey()].annotations, q, q);
  }

  lemma DeleteCall(w: World, q: string, ref: Ref, after: After)
    requires q in w.releases && ref.ToKey() in w.store
    requires w.releases[q].pc == CleanDelete(ref, w.store[ref.ToKey()].uid, w.store[ref.ToKey()].rv, after)
    ensures Apply(w, Do(q)) == Removed(w, q, ref.ToKey(), Proceed(w.releases[q].status, after))
  {
  }

  lemma GetCall(w: World, q: string, ref: Ref, after: After)
    requires q in w.releases && w.releases[q].pc == CleanGet(ref, after)
    ensures var k := ref.ToKey();
            Apply(w, Do(q)) == SetPc(w, q, if Lists(w, k, q) then CleanUpdate(ref, w.store[k], after)
                                           else Proceed(w.releases[q].status, after))
  {
  }

  lemma RunOneCall(w: World, q: string)
    ensures Run(w, Calls(q, 1)) == Apply(w, Do(q))
  {
    RunCons(w, Do(q), []);
    assert Calls(q, 1) == [Do(q)] + [];
  }

  lemma RunTwoCalls(w: World, q: string)
    ensures Run(w, Calls(q, 2)) == Apply(Apply(w, Do(q)), Do(q))
  {
    RunCons(w, Do(q), Calls(q, 1));
    RunOneCall(Apply(w, Do(q)), q);
  }

  lemma UpdatedThenRemoved(w: World, q: string, ref: Ref, pc: Pc, after: After)
    requires q in w.releases && Lists(w, ref.ToKey(), q) && Left(w.store[ref.ToKey()], q) == []
    ensures Cleaned(w, Removed(Updated(w, q, ref.ToKey(), pc), q, ref.ToKey(), Proceed(w.releases[q].status, after)),
                    q, ref, after)
  {
  }

  /** The unregistering update, and the delete if there is one. */
  lemma LoneUnregister(w: World, q: string, ref: Ref, after: After)
    requires Orderly(w) && q in w.releases && Lists(w, ref.ToKey(), q)
    requires w.releases[q].pc == CleanUpdate(ref, w.store[ref.ToKey()], after)
    ensures Cleaned(w, Run(w, Calls(q, if Left(w.store[ref.ToKey()], q) == [] then 2 else 1)), q, ref, after)
  {
    UpdateCall(w, q, ref, after);
    if Left(w.store[ref.ToKey()], q) == [] {
      RunTwoCalls(w, q);
      DeleteCall(Apply(w, Do(q)), q, ref, after);
      UpdatedThenRemoved(w, q, ref, Apply(w, Do(q)).releases[q].pc, after);
    } else {
      RunOneCall(w, q);
    }
  }

  /** The calls that a cleanup of source k makes when left alone. */
  function CleanupCalls(w: World, q: string, k: Key): (n: nat)
    ensures 1 <= n <= 3
  {
    if !Lists(w, k, q) then 1 else if Left(w.store[k], q) == [] then 3 else 2
  }

  lemma PcDoesNotMatter(w: World, w': World, q: string, pc: Pc, ref: Ref, after: After)
    requires q in w.releases && Cleaned(SetPc(w, q, pc), w', q, ref, after)
    ensures Cleaned(w, w', q, ref, after)
  {
  }

  lemma LoneCleanup(w: World, q: string, ref: Ref, after: After)
    requires Orderly(w) && q in w.releases && w.releases[q].pc == CleanGet(ref, after)
    ensures Cleaned(w, Run(w, Calls(q, CleanupCalls(w, q, ref.ToKey()))), q, ref, after)
  {
    var w1, n := Apply(w, Do(q)), CleanupCalls(w, q, ref.ToKey());
    GetCall(w, q, ref, after);
    RunCons(w, Do(q), Calls(q, n - 1));
    if Lists(w, ref.ToKey(), q) {
      ListingStep(w, Do(q));
      LoneUnregister(w1, q, ref, after);
      PcDoesNotMatter(w, Run(w1, Calls(q, n - 1)), q, w1.releases[q].pc, ref, after);
    }
  }

  // ----- What it means for the sources -----

  /** q is off source k, everybody else stays on it, and it is gone if and only if q was its last user. */
  ghost predicate SourceReleased(store: Store, store': Store, q: string, k: Key) {
    && (k in store' <==> k in store && !LastUser(store, k, q))
    && (k in store' ==>
          && Registered(store'[k].annotations) == Registered(store[k].annotations) - {q}
          && store'[k].uid == store[k].uid && SameOtherwise(store[k].annotations, store'[k].annotations))
  }

  lemma FreedMeans(w: World, q: string, k: Key)
    requires Orderly(w) && ValidName(q)
    ensures var store' := Freed(w.store, w.clock, q, k);
            SourceReleased(w.store, store', q, k) && store' - {k} == w.store - {k}
  {
    if k in w.store {
      if q in Names(w.store[k].annotations) {
        UnregisterRefinesRemove(w.store[k].annotations, q);
      } else {
        assert q !in Registered(w.store[k].annotations);
      }
    }
  }

  // ----- Passes that clean up -----

  /** The release when its pass is over, from its last one or two calls, which write no source. */
  function Finished(rel: Release): Release
    requires rel.pc == DropFinalizer || rel.pc.Commit?
  {
    if rel.pc == DropFinalizer then rel.(finalizer := false, pc := Idle(Advanced))
    else if rel.pc.next == CLEARED then rel.(status := CLEARED, helmChart := false, pc := Idle(Advanced))
    else rel.(status := rel.pc.next, pc := Idle(Advanced))
  }

  lemma LastCalls(w: World, q: string, n: nat)
    requires q in w.releases && n >= 2 && (w.releases[q].pc == DropFinalizer || w.releases[q].pc.Commit?)
    ensures Run(w, Calls(q, n)) == SetRelease(w, q, Finished(w.releases[q]))
  {
    var w1 := Apply(w, Do(q));
    RunCons(w, Do(q), Calls(q, n - 1));
    if w1.releases[q].pc.Idle? {
      IdleStays(w1, q, n - 1);
    } else {
      RunCons(w1, Do(q), Calls(q, n - 2));
      IdleStays(Apply(w1, Do(q)), q, n - 2);
    }
  }

  /** From the last cleanup of a pass to its end. */
  lemma AfterCleanup(w: World, w1: World, q: string, ref: Ref, after: After, n: nat)
    requires q in w.releases && Cleaned(w, w1, q, ref, after) && after != ToCandidate && n >= 2
    ensures Ends(w, Run(w1, Calls(q, n)), q, ref, after)
  {
    LastCalls(w1, q, n);
  }

  /** The pass of q is over, with ref cleaned up last. */
  ghost predicate Ends(w: World, w': World, q: string, ref: Ref, after: After)
    requires q in w.releases && after != ToCandidate
  {
    var rel := w.releases[q];
    && w'.store == Freed(w.store, w.clock, q, ref.ToKey())
    && q in w'.releases && w'.releases[q] == Finished(rel.(pc := Proceed(rel.status, after)))
  }

  lemma LoneCleanupAndLastCalls(w: World, q: string, ref: Ref, after: After, n: nat)
    requires Orderly(w) && q in w.releases && w.releases[q].pc == CleanGet(ref, after) && after != ToCandidate && n >= 5
    ensures Ends(w, Run(w, Calls(q, n)), q, ref, after)
  {
    var m := CleanupCalls(w, q, ref.ToKey());
    LoneCleanup(w, q, ref, after);
    SplitCalls(w, q, m, n);
    AfterCleanup(w, Run(w, Calls(q, m)), q, ref, after, n - m);
  }

  lemma LonePassBegins(w: World, q: string)
    requires Orderly(w) && q in w.releases && w.releases[q].pc.Idle?
    ensures Run(w, LonePass(q)) == Run(Apply(w, Begin(q)), Calls(q, 8))
    ensures Apply(w, Begin(q)) == SetPc(w, q, FirstCall(w.releases[q])) && Orderly(Apply(w, Begin(q)))
    ensures ValidName(q)
  {
    RunCons(w, Begin(q), Calls(q, 8));
    ListingStep(w, Begin(q));
  }

  /**
   A delete pass left alone, after a successful uninstall, takes the finalizer and takes the release
   off its last applied source, which goes if and only if the release was its last user. It touches
   no other source.
   */
  lemma LonePassReleases(w: World, q: string)
    requires Orderly(w) && q in w.releases
    requires w.releases[q].deleting && w.releases[q].finalizer && w.releases[q].pc.Idle?
    ensures var w', last := Run(w, LonePass(q)), KeyOf(w.releases[q].status.lastApplied);
            && q in w'.releases && !w'.releases[q].finalizer
            && (forall k :: k in last ==> SourceReleased(w.store, w'.store, q, k))
            && w'.store - last == w.store - last
            && Listing(w', q) == Listing(w, q) - last
  {
    LonePassBegins(w, q);
    match w.releases[q].status.lastApplied {
      case Some(ref) =>
        LoneCleanupAndLastCalls(Apply(w, Begin(q)), q, ref, ToFinalizer, 8);
        FreedMeans(w, q, ref.ToKey());
      case None =>
        LastCalls(Apply(w, Begin(q)), q, 8);
    }
    ReleasedListing(w, Run(w, LonePass(q)), q, KeyOf(w.releases[q].status.lastApplied));
  }

  /** Released sources are off the list of those that name q, and no other is. */
  lemma ReleasedListing(w: World, w': World, q: string, former: set<Key>)
    requires q != "" && w'.store - former == w.store - former
    requires forall k :: k in former ==> SourceReleased(w.store, w'.store, q, k)
    ensures Listing(w', q) == Listing(w, q) - former
  {
    forall k ensures k in Listing(w', q) <==> k in Listing(w, q) && k !in former {
      if k in former {
        assert SourceReleased(w.store, w'.store, q, k);
        assert k in w'.store ==> q !in Registered(w'.store[k].annotations);
      } else {
        assert k in w'.store - former <==> k in w.store - former;
        assert k in w.store ==> (w'.store - former)[k] == (w.store - former)[k];
      }
    }
  }

  /**
   A pass left alone in Disconnecting settles the release on its candidate and takes it off the last
   applied source, which goes if and only if the release was its last user. The candidate goes on
   listing the release if and only if the two references name different objects, that is unless they
   differ in API group and version alone.
   */
  lemma LonePassDisconnects(w: World, q: string, last: Ref, candidate: Ref)
    requires Orderly(w) && q in w.releases && w.releases[q].spec.Inline?
    requires w.releases[q].status == Status(Disconnecting, Some(last), Some(candidate)) && last != candidate
    requires !w.releases[q].deleting && w.releases[q].finalizer && w.releases[q].pc.Idle?
    requires Lists(w, candidate.ToKey(), q)
    ensures var w', k := Run(w, LonePass(q)), last.ToKey();
            && q in w'.releases && w'.releases[q].status == Status(Ready, Some(candidate), Some(candidate))
            && SourceReleased(w.store, w'.store, q, k) && w'.store - {k} == w.store - {k}
            && (Lists(w', candidate.ToKey(), q) <==>
                last.(group := candidate.group, version := candidate.version) != candidate)
  {
    LonePassBegins(w, q);
    LoneCleanupAndLastCalls(Apply(w, Begin(q)), q, last, ToReady, 8);
    FreedMeans(w, q, last.ToKey());
    StillListed(w.store, Run(w, LonePass(q)).store, q, last.ToKey(), candidate.ToKey());
  }

  lemma StillListed(store: Store, store': Store, q: string, freed: Key, k: Key)
    requires SourceReleased(store, store', q, freed) && store' - {freed} == store - {freed}
    requires k in store && q in Names(store[k].annotations) && q != ""
    ensures k in store' && q in Names(store'[k].annotations) <==> k != freed
  {
    if k == freed {
      assert k in store' ==> q !in Registered(store'[k].annotations);
    } else {
      assert k in store - {freed};
      assert k in store' - {freed};
      assert (store - {freed})[k] == store[k] && (store' - {freed})[k] == store'[k];
    }
  }

  /** Two cleanups in a row release both sources, whether they are two or one. */
  lemma ReleasedTwice(s0: Store, s1: Store, s2: Store, q: string, first: Key, second: Key)
    requires SourceReleased(s0, s1, q, first) && s1 - {first} == s0 - {first}
    requires SourceReleased(s1, s2, q, second) && s2 - {second} == s1 - {second}
    ensures SourceReleased(s0, s2, q, first) && SourceReleased(s0, s2, q, second)
    ensures s2 - {first, second} == s0 - {first, second}
  {
    OtherSource(s0, s1, first, second);
    OtherSource(s1, s2, second, first);
    if first == second && first in s1 {
      assert q !in Registered(s1[first].annotations);
    }
    forall k | k != first && k != second ensures (k in s2 <==> k in s0) && (k in s0 ==> s2[k] == s0[k]) {
      OtherSource(s0, s1, first, k);
      OtherSource(s1, s2, second, k);
    }
  }

  lemma OtherSource(s: Store, s': Store, freed: Key, k: Key)
    requires s' - {freed} == s - {freed}
    ensures k != freed ==> (k in s' <==> k in s) && (k in s ==> s'[k] == s[k])
  {
    assert k in s' - {freed} <==> k in s - {freed};
    if k != freed && k in s {
      assert (s' - {freed})[k] == (s - {freed})[k];
    }
  }

  /**
   A pass left alone over a chartRef unwinds a former spec.chart: it clears the fields, removes the
   HelmChart and takes the release off both of its sources, each of which goes if and only if the
   release was its last user. It touches no other source.
   */
  lemma LonePassUnwinds(w: World, q: string)
    requires Orderly(w) && q in w.releases
    requires var rel := w.releases[q];
             && rel.pc.Idle? && rel.finalizer && !rel.deleting && rel.spec.UserRef?
             && (rel.status.lastApplied.Some? || rel.status.candidate.Some?)
    ensures var w', st := Run(w, LonePass(q)), w.releases[q].status;
            var former := KeyOf(st.lastApplied) + KeyOf(st.candidate);
            Unwinds(w.store, w', q, former) && Listing(w', q) == Listing(w, q) - former
  {
    var st, begun := w.releases[q].status, Apply(w, Begin(q));
    LonePassBegins(w, q);
    match st.lastApplied {
      case Some(last) =>
        UnwindsFrom(begun, q, last);
      case None =>
        LoneCleanupAndLastCalls(begun, q, st.candidate.value, ToCleared, 8);
        FreedMeans(w, q, st.candidate.value.ToKey());
        assert KeyOf(st.lastApplied) + KeyOf(st.candidate) == {st.candidate.value.ToKey()};
    }
    ReleasedListing(w, Run(w, LonePass(q)), q, KeyOf(st.lastApplied) + KeyOf(st.candidate));
  }

  /** What unwinding leaves: the given sources released, the others untouched, the fields cleared. */
  ghost predicate Unwinds(store: Store, w': World, q: string, former: set<Key>) {
    && q in w'.releases && w'.releases[q].status == CLEARED && !w'.releases[q].helmChart
    && (forall k :: k in former ==> SourceReleased(store, w'.store, q, k))
    && w'.store - former == store - former
  }

  lemma UnwindsFrom(w: World, q: string, last: Ref)
    requires Orderly(w) && q in w.releases && w.releases[q].pc == CleanGet(last, ToCandidate)
    ensures Unwinds(w.store, Run(w, Calls(q, 8)), q, KeyOf(Some(last)) + KeyOf(w.releases[q].status.candidate))
  {
    var m := CleanupCalls(w, q, last.ToKey());
    LoneCleanup(w, q, last, ToCandidate);
    CallsKeepOrder(w, q, m);
    SplitCalls(w, q, m, 8);
    UnwindsCandidate(w, Run(w, Calls(q, m)), q, last, 8 - m);
  }

  lemma BothReleased(w: World, w1: World, w2: World, q: string, last: Ref, ref: Ref)
    requires Orderly(w1) && ValidName(q) && q in w1.releases && Ends(w1, w2, q, ref, ToCleared)
    requires SourceReleased(w.store, w1.store, q, last.ToKey()) && w1.store - {last.ToKey()} == w.store - {last.ToKey()}
    ensures Unwinds(w.store, w2, q, KeyOf(Some(last)) + KeyOf(Some(ref)))
  {
    FreedMeans(w1, q, ref.ToKey());
    ReleasedTwice(w.store, w1.store, w2.store, q, last.ToKey(), ref.ToKey());
    assert KeyOf(Some(last)) + KeyOf(Some(ref)) == {last.ToKey(), ref.ToKey()};
  }

  lemma UnwindsCandidate(w: World, w1: World, q: string, last: Ref, n: nat)
    requires Orderly(w) && Orderly(w1) && q in w.releases && Cleaned(w, w1, q, last, ToCandidate) && n >= 5
    ensures Unwinds(w.store, Run(w1, Calls(q, n)), q, KeyOf(Some(last)) + KeyOf(w.releases[q].status.candidate))
  {
    FreedMeans(w, q, last.ToKey());
    match w.releases[q].status.candidate
    case Some(ref) =>
      LoneCleanupAndLastCalls(w1, q, ref, ToCleared, n);
      BothReleased(w, w1, Run(w1, Calls(q, n)), q, last, ref);
    case None =>
      LastCalls(w1, q, n);
      assert KeyOf(Some(last)) + KeyOf(None) == {last.ToKey()};
  }
}
