/**
 The stored annotations, seen as a relation between sources and releases: which step changes
 the relation, for whom, and that nothing else does.
 */
module Registrations {
  import opened Basics
  import opened RefNames
  import opened Protocol
  import opened SourceSafety

  /** Release names are admissible and no annotation names a release twice. */
  ghost predicate Orderly(w: World) {
    && Versions(w)
    && (forall r :: r in w.releases ==> ValidName(r))
    && (forall k :: k in w.store ==> Proper(w.store[k].annotations))
  }

  /** The step writes q into the annotation of source k. */
  predicate Adds(w: World, s: Step, q: string, k: Key) {
    && s == Do(q) && q in w.releases
    && match w.releases[q].pc
       case EnsureCreate(ref) => ref.ToKey() == k && k !in w.store
       case EnsureUpdate(ref, seen) => ref.ToKey() == k && Current(w, ref, seen.rv)
       case _ => false
  }

  /** The step takes q out of the annotation of source k. */
  predicate Drops(w: World, s: Step, q: string, k: Key) {
    && s == Do(q) && q in w.releases
    && match w.releases[q].pc
       case CleanUpdate(ref, seen, _) => ref.ToKey() == k && Current(w, ref, seen.rv)
       case _ => false
  }

  /** One API call changes at most who lists its own release, and by one source. */
  lemma EffectOnListing(w: World, r: string, k: Key, q: string)
    requires Orderly(w) && r in w.releases && q != ""
    ensures Lists(StoreEffect(w, r), k, q) <==>
            (Lists(w, k, q) && !Drops(w, Do(r), q, k)) || Adds(w, Do(r), q, k)
  {
    assert Remembers(w, r);
    match w.releases[r].pc
    case EnsureCreate(ref) => CreateRegistersOne(r);
    case EnsureUpdate(ref, seen) => NameAfterRegister(seen.annotations, r, q);
    case CleanUpdate(ref, seen, after) =>
      if Current(w, ref, seen.rv) { NameAfterUnregister(seen.annotations, r, q); }
    case _ =>
  }

  lemma EffectKeepsProper(w: World, r: string, k: Key)
    requires Orderly(w) && r in w.releases && k in StoreEffect(w, r).store
    ensures Proper(StoreEffect(w, r).store[k].annotations)
  {
    assert Remembers(w, r);
    match w.releases[r].pc
    case EnsureCreate(ref) => CreateRegistersOne(r);
    case EnsureUpdate(ref, seen) => RegisterRefinesInsert(seen.annotations, r);
    case CleanUpdate(ref, seen, after) =>
      if Current(w, ref, seen.rv) { UnregisterRefinesRemove(seen.annotations, r); }
    case _ =>
  }

  lemma BenignKeepsNames(old': Annotations, new': Annotations)
    requires RefText(old') == RefText(new')
    ensures forall q :: q != "" ==> (q in Names(old') <==> q in Names(new'))
    ensures Proper(old') ==> Proper(new')
  {
  }

  lemma ProperAfter(w: World, s: Step, k: Key)
    requires Orderly(w) && Benign(w, s) && k in Apply(w, s).store
    ensures Proper(Apply(w, s).store[k].annotations)
  {
    match s
    case Do(r) => if r in w.releases { EffectKeepsProper(w, r, k); }
    case Touch(key, annotations) =>
      if key in w.store { BenignKeepsNames(w.store[key].annotations, annotations); }
    case Plant(_, annotations) => BenignKeepsNames(None, annotations);
    case _ =>
  }

  /** One source and one release. */
  lemma ListingPair(w: World, s: Step, k: Key, q: string)
    requires Orderly(w) && Benign(w, s) && q != ""
    ensures Lists(Apply(w, s), k, q) <==> (Lists(w, k, q) && !Drops(w, s, q, k)) || Adds(w, s, q, k)
  {
    match s
    case Do(r) => if r in w.releases { EffectOnListing(w, r, k, q); }
    case Touch(key, annotations) =>
      if key in w.store { BenignKeepsNames(w.store[key].annotations, annotations); }
    case Plant(_, annotations) => BenignKeepsNames(None, annotations);
    case _ =>
  }

  /**
   The annotation refines the relation: a step changes who lists q only if it is q's own
   registering or unregistering write, and then by exactly that one pair.
   */
  lemma ListingStep(w: World, s: Step)
    requires Orderly(w) && Benign(w, s)
    ensures Orderly(Apply(w, s))
    ensures forall q, k :: q != "" ==>
      (Lists(Apply(w, s), k, q) <==> (Lists(w, k, q) && !Drops(w, s, q, k)) || Adds(w, s, q, k))
  {
    VersionsStep(w, s);
    StepIsFresher(w, s);
    forall k | k in Apply(w, s).store ensures Proper(Apply(w, s).store[k].annotations) {
      ProperAfter(w, s, k);
    }
    forall q, k | q != ""
      ensures Lists(Apply(w, s), k, q) <==> (Lists(w, k, q) && !Drops(w, s, q, k)) || Adds(w, s, q, k)
    {
      ListingPair(w, s, k, q);
    }
  }

  /** Through every benign run the annotations stay duplicate-free lists of admissible names. */
  lemma {:induction false} OrderlyRun(w: World, steps: seq<Step>)
    requires Orderly(w) && Along(w, steps, Benign)
    ensures Orderly(Run(w, steps))
    decreases steps
  {
    if steps != [] {
      ListingStep(w, steps[0]);
      OrderlyRun(Apply(w, steps[0]), steps[1..]);
    }
  }

  /**
   The operator and its users leave every other annotation of a source alone, and the identity of the
   source with it; a source the operator creates carries no other annotation.
   */
  lemma OtherAnnotationsStep(w: World, s: Step, k: Key)
    requires Versions(w) && Actor(s).Some? && k in Apply(w, s).store
    ensures var now := Apply(w, s).store[k];
            if k in w.store then now.uid == w.store[k].uid && SameOtherwise(w.store[k].annotations, now.annotations)
            else
              && now.uid == now.rv == w.clock
              && now.annotations == Some(map["nelm.werf.io/release-refs" := Actor(s).value])
  {
    if Actor(s).value in w.releases {
      assert Remembers(w, Actor(s).value);
    }
  }

  /** Over whole runs of any number of releases, as long as nobody else writes the source and it is there. */
  lemma {:induction false} OtherAnnotationsRun(w: World, steps: seq<Step>, k: Key)
    requires Versions(w) && k in w.store
    requires Along(w, steps, (v, s) => Actor(s).Some? && k in Apply(v, s).store)
    ensures var w' := Run(w, steps);
            && k in w'.store && w'.store[k].uid == w.store[k].uid
            && SameOtherwise(w.store[k].annotations, w'.store[k].annotations)
    decreases steps
  {
    if steps != [] {
      VersionsStep(w, steps[0]);
      OtherAnnotationsStep(w, steps[0], k);
      OtherAnnotationsRun(Apply(w, steps[0]), steps[1..], k);
    }
  }

  /** Whatever one release does, the registrations of every other release stay as they are. */
  lemma OthersUntouched(w: World, s: Step, q: string)
    requires Orderly(w) && Benign(w, s) && ValidName(q) && Actor(s) != Some(q)
    ensures Listing(Apply(w, s), q) == Listing(w, q)
  {
    ListingStep(w, s);
    forall k ensures k in Listing(Apply(w, s), q) <==> k in Listing(w, q) {
      assert Lists(Apply(w, s), k, q) <==> Lists(w, k, q);
    }
  }
}
