/**
 What becomes of a source that its last user leaves: deleted by the guarded delete, or, if anything
 comes between the emptying update and that delete, never deleted again.
 */
module Deletions {
  import opened Basics
  import opened RefNames
  import opened Protocol
  import opened SourceSafety
  import opened Registrations

  /** q is the only user of source k, and the list holds no empty entry. */
  ghost predicate LastUser(store: map<Key, Source>, k: Key, q: string) {
    k in store && Registered(store[k].annotations) == {q} && "" !in Names(store[k].annotations)
  }

  /** The source is there and its list holds an empty entry. */
  ghost predicate HasEmptyEntry(w: World, k: Key) {
    k in w.store && RefText(w.store[k].annotations).Some? && "" in Names(w.store[k].annotations)
  }

  /** No pass, but for one that is spared, holds the resource version under which it may delete the source. */
  ghost predicate Undeletable(w: World, k: Key, spared: Option<string>) {
    k in w.store &&
    forall r :: r in w.releases && Some(r) != spared && Deletes(w.releases[r].pc, k) ==>
      w.releases[r].pc.rv != w.store[k].rv
  }

  /** The next call is a delete of source k. */
  predicate Deletes(pc: Pc, k: Key) {
    pc.CleanDelete? && pc.ref.ToKey() == k
  }

  ghost predicate Stuck(w: World, k: Key, spared: Option<string>) {
    HasEmptyEntry(w, k) && Undeletable(w, k, spared)
  }

  // ----- A list with an empty entry is never emptied -----

  lemma EntrySurvivesJoin(annotations: Annotations, r: string)
    requires ValidName(r) && "" in Names(annotations)
    ensures "" in Names(WithNames(annotations, AddName(Names(annotations), r)))
  {
    RegisterRefinesInsert(annotations, r);
  }

  lemma EntrySurvivesLeave(annotations: Annotations, r: string)
    requires ValidName(r) && "" in Names(annotations) && r in Names(annotations)
    ensures RemoveName(Names(annotations), r) != []
    ensures "" in Names(WithNames(annotations, RemoveName(Names(annotations), r)))
  {
    var names := Names(annotations);
    var i := IndexOf(names, r);
    var j :| 0 <= j < |names| && names[j] == "";
    var left := RemoveName(names, r);
    assert left[if j < i then j else j - 1] == "";
    NamesAfterWrite(annotations, left);
  }

  lemma EntryStays(w: World, r: string, k: Key, spared: Option<string>)
    requires Orderly(w) && Stuck(w, k, spared) && r in w.releases && Some(r) != spared
    ensures HasEmptyEntry(StoreEffect(w, r), k)
  {
    assert Remembers(w, r);
    match w.releases[r].pc
    case EnsureUpdate(ref, seen) => EntrySurvivesJoin(w.store[k].annotations, r);
    case CleanUpdate(ref, seen, _) =>
      if r in Names(w.store[k].annotations) { EntrySurvivesLeave(w.store[k].annotations, r); }
    case _ =>
  }

  lemma NothingDeletesNext(st: Status, after: After)
    ensures !Proceed(st, after).CleanDelete? && !Proceed(st, after).Idle?
  {
  }

  /** A pass gets to delete a source only by emptying its list, and this list cannot be emptied. */
  lemma NoNewDelete(w: World, r: string, k: Key)
    requires Orderly(w) && HasEmptyEntry(w, k) && r in w.releases
    ensures Deletes(NextRelease(w, r).pc, k) ==> NextRelease(w, r).pc == w.releases[r].pc
  {
    assert Remembers(w, r);
    match w.releases[r].pc
    case CleanUpdate(ref, seen, after) =>
      NothingDeletesNext(w.releases[r].status, after);
      if ref.ToKey() == k && Current(w, ref, seen.rv) {
        assert seen == w.store[k];
        EntrySurvivesLeave(seen.annotations, r);
        assert Left(seen, r) != [];
      }
    case CleanGet(_, after) => NothingDeletesNext(w.releases[r].status, after);
    case CleanDelete(_, _, _, after) => NothingDeletesNext(w.releases[r].status, after);
    case _ =>
  }

  lemma EntryStep(w: World, s: Step, k: Key, spared: Option<string>)
    requires Orderly(w) && Benign(w, s) && Stuck(w, k, spared) && (s.Do? ==> Some(s.name) != spared)
    ensures HasEmptyEntry(Apply(w, s), k)
  {
    if s.Do? && s.name in w.releases {
      EntryStays(w, s.name, k, spared);
    }
  }

  lemma UndeletableStep(w: World, s: Step, k: Key, r: string)
    requires Orderly(w) && HasEmptyEntry(w, k) && r in w.releases && r in Apply(w, s).releases
    ensures Deletes(Apply(w, s).releases[r].pc, k) ==> Apply(w, s).releases[r].pc == w.releases[r].pc
  {
    if Actor(s) != Some(r) {
      StepIsFresher(w, s);
    } else if s == Do(r) {
      NoNewDelete(w, r, k);
    } else if s == Begin(r) {
      NoPassBeginsByDeleting(w.releases[r]);
    }
  }

  lemma NoPassBeginsByDeleting(rel: Release)
    ensures !FirstCall(rel).CleanDelete?
  {
  }

  lemma StuckStep(w: World, s: Step, k: Key, spared: Option<string>)
    requires Orderly(w) && Benign(w, s) && Stuck(w, k, spared) && (s.Do? ==> Some(s.name) != spared)
    ensures Stuck(Apply(w, s), k, spared)
  {
    var w' := Apply(w, s);
    EntryStep(w, s, k, spared);
    StepIsFresher(w, s);
    forall r | r in w'.releases && Some(r) != spared && Deletes(w'.releases[r].pc, k)
      ensures w'.releases[r].pc.rv != w'.store[k].rv
    {
      UndeletableStep(w, s, k, r);
      assert Remembers(w, r);
    }
  }

  /**
   A source with an empty entry in its list, which no pass is about to delete, is never deleted by the
   operator again, however many releases join and leave it.
   */
  lemma {:induction false} EmptiedSourceIsNeverDeleted(w: World, steps: seq<Step>, k: Key)
    requires Orderly(w) && Stuck(w, k, None) && Along(w, steps, Benign)
    ensures k in Run(w, steps).store
    decreases steps
  {
    if steps != [] {
      StuckStep(w, steps[0], k, None);
      ListingStep(w, steps[0]);
      EmptiedSourceIsNeverDeleted(Apply(w, steps[0]), steps[1..], k);
    }
  }

  // ----- Between the emptying update and the delete -----

  /** A pass about to unregister its release, under a resource version that is current. */
  ghost predicate AboutToUnregister(w: World, r: string, k: Key) {
    && Orderly(w) && r in w.releases && w.releases[r].pc.CleanUpdate? && w.releases[r].pc.ref.ToKey() == k
    && Current(w, w.releases[r].pc.ref, w.releases[r].pc.seen.rv)
  }

  /** Anything may happen, but the pass of r stays where it is. */
  ghost predicate Meanwhile(w: World, steps: seq<Step>, r: string) {
    Along(w, steps, (v, s) => Benign(v, s) && s != Do(r) && s != Abort(r))
  }

  /** The list is emptied if and only if r was the last user, and only then does a delete come next. */
  lemma EmptiesIffLastUser(w: World, r: string, k: Key)
    requires AboutToUnregister(w, r, k)
    ensures r in Apply(w, Do(r)).releases && k in Apply(w, Do(r)).store && Orderly(Apply(w, Do(r)))
    ensures var w1 := Apply(w, Do(r));
            var pc := w1.releases[r].pc;
            && (LastUser(w.store, k, r) <==> Left(w.store[k], r) == [])
            && (if LastUser(w.store, k, r)
                then Deletes(pc, k) && pc.rv == w1.store[k].rv == w.clock && pc.uid == w1.store[k].uid
                else !pc.CleanDelete? && !pc.Idle?)
  {
    var pc := w.releases[r].pc;
    assert Remembers(w, r);
    UnregisterRefinesRemove(pc.seen.annotations, r);
    NameAfterUnregister(pc.seen.annotations, r, r);
    NothingDeletesNext(w.releases[r].status, pc.after);
    ListingStep(w, Do(r));
  }

  /** Right after the emptying update nobody else can delete the source. */
  lemma OnlyOneMayDelete(w: World, r: string, k: Key)
    requires AboutToUnregister(w, r, k) && LastUser(w.store, k, r)
    ensures Stuck(Apply(w, Do(r)), k, Some(r))
  {
    EmptiesIffLastUser(w, r, k);
    assert Remembers(w, r);
    NamesAfterWrite(w.store[k].annotations, []);
    StepIsFresher(w, Do(r));
    forall q | q in w.releases && q != r && Deletes(w.releases[q].pc, k) ensures w.releases[q].pc.rv < w.clock {
      assert Remembers(w, q);
    }
  }

  lemma {:induction false} PassStands(w: World, steps: seq<Step>, r: string)
    requires Meanwhile(w, steps, r) && r in w.releases && !w.releases[r].pc.Idle?
    ensures r in Run(w, steps).releases && Run(w, steps).releases[r].pc == w.releases[r].pc
    decreases steps
  {
    if steps != [] {
      StepIsFresher(w, steps[0]);
      PassStands(Apply(w, steps[0]), steps[1..], r);
    }
  }

  lemma {:induction false} StuckMeanwhile(w: World, steps: seq<Step>, r: string, k: Key)
    requires Orderly(w) && Meanwhile(w, steps, r) && Stuck(w, k, Some(r)) && r in w.releases
    ensures Orderly(Run(w, steps)) && Stuck(Run(w, steps), k, Some(r))
    ensures Run(w, steps).store[k].uid == w.store[k].uid
    decreases steps
  {
    if steps != [] {
      StuckStep(w, steps[0], k, Some(r));
      ListingStep(w, steps[0]);
      SameUid(w, steps[0], k);
      StepIsFresher(w, steps[0]);
      StuckMeanwhile(Apply(w, steps[0]), steps[1..], r, k);
    }
  }

  lemma SameUid(w: World, s: Step, k: Key)
    requires k in w.store && k in Apply(w, s).store
    ensures Apply(w, s).store[k].uid == w.store[k].uid
  {
  }

  /**
   What the count is for, in every interleaving. A pass unregisters its release, anything at all happens,
   and the pass makes its next call. That call removes the source if and only if the release was its
   last user and nobody wrote the source in between. If the list was emptied the source is still there
   when the call comes.
   */
  lemma DeletedIffLastUser(w: World, r: string, k: Key, steps: seq<Step>)
    requires AboutToUnregister(w, r, k) && Meanwhile(Apply(w, Do(r)), steps, r)
    ensures k in Apply(w, Do(r)).store
    ensures var w1 := Apply(w, Do(r));
            var w2 := Run(w1, steps);
            && (LastUser(w.store, k, r) ==> k in w2.store)
            && (k in w2.store ==>
                  (k !in Apply(w2, Do(r)).store <==>
                   LastUser(w.store, k, r) && w2.store[k].rv == w1.store[k].rv))
  {
    var w1 := Apply(w, Do(r));
    EmptiesIffLastUser(w, r, k);
    PassStands(w1, steps, r);
    if LastUser(w.store, k, r) {
      OnlyOneMayDelete(w, r, k);
      StuckMeanwhile(w1, steps, r, k);
    }
    if k in Run(w1, steps).store {
      NextCall(Run(w1, steps), r, k);
    }
  }

  /** The call removes source k if and only if it is a delete of k whose preconditions hold. */
  lemma NextCall(w: World, r: string, k: Key)
    requires r in w.releases && k in w.store
    ensures k !in Apply(w, Do(r)).store <==>
            var pc := w.releases[r].pc; Deletes(pc, k) && w.store[k].rv == pc.rv && w.store[k].uid == pc.uid
  {
  }

  /**
   And if it does not go then, it stays for good. An emptied source that outlives the call after the
   emptying update, because the pass was cut short there or somebody wrote the source in between, is
   never deleted by the operator in any later run.
   */
  lemma SparedSourceStaysForGood(w: World, r: string, k: Key, steps: seq<Step>, s: Step, later: seq<Step>)
    requires AboutToUnregister(w, r, k) && LastUser(w.store, k, r) && Meanwhile(Apply(w, Do(r)), steps, r)
    requires s == Do(r) || s == Abort(r)
    requires Along(Apply(Run(Apply(w, Do(r)), steps), s), later, Benign)
    ensures k in Apply(w, Do(r)).store && k in Run(Apply(w, Do(r)), steps).store
    ensures var w1 := Apply(w, Do(r));
            var w2 := Run(w1, steps);
            && (k in Apply(w2, s).store <==> s == Abort(r) || w2.store[k].rv != w1.store[k].rv)
            && (k in Apply(w2, s).store ==> k in Run(Apply(w2, s), later).store)
  {
    var w1 := Apply(w, Do(r));
    var w2 := Run(w1, steps);
    DeletedIffLastUser(w, r, k, steps);
    EmptiesIffLastUser(w, r, k);
    OnlyOneMayDelete(w, r, k);
    StuckMeanwhile(w1, steps, r, k);
    PassStands(w1, steps, r);
    if k in Apply(w2, s).store {
      ListingStep(w2, s);
      Spared(w2, s, r, k);
      EmptiedSourceIsNeverDeleted(Apply(w2, s), later, k);
    }
  }

  lemma Spared(w: World, s: Step, r: string, k: Key)
    requires Orderly(w) && r in w.releases && Deletes(w.releases[r].pc, k) && Stuck(w, k, Some(r))
    requires (s == Do(r) || s == Abort(r)) && k in Apply(w, s).store
    ensures Stuck(Apply(w, s), k, None)
  {
    NothingDeletesNext(w.releases[r].status, w.releases[r].pc.after);
    StepIsFresher(w, s);
    assert Apply(w, s).store[k] == w.store[k];
  }
}
