/** What every step keeps about resource versions, and why no source in use is ever deleted. */
module SourceSafety {
  import opened Basics
  import opened RefNames
  import opened Protocol

  /** A copy read earlier is still exact if the resource version has not moved. */
  ghost predicate Seen(w: World, k: Key, seen: Source) {
    seen.rv < w.clock && (k in w.store && w.store[k].rv == seen.rv ==> w.store[k] == seen)
  }

  /** What the pass of r remembers of the cluster is right or will be refused. */
  ghost predicate Remembers(w: World, r: string)
    requires r in w.releases
  {
    match w.releases[r].pc
    case EnsureUpdate(ref, seen) => Seen(w, ref.ToKey(), seen)
    case CleanUpdate(ref, seen, _) => Seen(w, ref.ToKey(), seen) && r in Names(seen.annotations)
    case CleanDelete(ref, _, rv, _) =>
      && rv < w.clock
      && (ref.ToKey() in w.store && w.store[ref.ToKey()].rv == rv ==> Names(w.store[ref.ToKey()].annotations) == [""])
    case _ => true
  }

  ghost predicate Versions(w: World) {
    && (forall k :: k in w.store ==> w.store[k].rv < w.clock)
    && (forall r :: r in w.releases ==> Remembers(w, r))
  }

  /** Every source of w' is one of w untouched, or was written under a new resource version. */
  ghost predicate Fresher(w: World, w': World) {
    && w.clock <= w'.clock
    && forall k :: k in w'.store ==>
         (k in w.store && w'.store[k] == w.store[k]) || w.clock <= w'.store[k].rv < w'.clock
  }

  lemma EffectIsFresher(w: World, r: string)
    requires r in w.releases
    ensures Fresher(w, StoreEffect(w, r)) && StoreEffect(w, r).releases == w.releases
  {
  }

  lemma StepIsFresher(w: World, s: Step)
    ensures Fresher(w, Apply(w, s))
    ensures Apply(w, s).releases.Keys == w.releases.Keys
    ensures forall q :: q in w.releases && Actor(s) != Some(q) ==> Apply(w, s).releases[q] == w.releases[q]
  {
    if s.Do? && s.name in w.releases {
      EffectIsFresher(w, s.name);
    }
  }

  /** The release a step belongs to. */
  function Actor(s: Step): Option<string> {
    match s
    case Begin(r) => Some(r)
    case Do(r) => Some(r)
    case Abort(r) => Some(r)
    case EditSpec(r, _) => Some(r)
    case RequestDelete(r) => Some(r)
    case _ => None
  }

  lemma MemorySurvives(w: World, w': World, q: string)
    requires Versions(w) && Fresher(w, w')
    requires q in w.releases && q in w'.releases && w'.releases[q].pc == w.releases[q].pc
    ensures Remembers(w', q)
  {
    assert Remembers(w, q);
  }

  /** What a pass learns from its own call is right. */
  lemma OwnMemory(w: World, r: string)
    requires Versions(w) && r in w.releases
    ensures Remembers(Apply(w, Do(r)), r)
  {
    assert Remembers(w, r);
    EffectIsFresher(w, r);
    match w.releases[r].pc
    case CleanUpdate(ref, seen, after) =>
      assert Left(seen, r) == [] ==> Names(WithNames(seen.annotations, [])) == [""];
    case _ =>
  }

  /** Resource versions stay meaningful through every step, whatever foreign writers do. */
  lemma VersionsStep(w: World, s: Step)
    requires Versions(w)
    ensures Versions(Apply(w, s))
  {
    var w' := Apply(w, s);
    StepIsFresher(w, s);
    forall q | q in w'.releases ensures Remembers(w', q) {
      if w'.releases[q].pc == w.releases[q].pc {
        MemorySurvives(w, w', q);
      } else if s == Do(q) {
        OwnMemory(w, q);
      }
    }
  }

  lemma {:induction false} VersionsRun(w: World, steps: seq<Step>)
    requires Versions(w)
    ensures Versions(Run(w, steps))
    decreases steps
  {
    if steps != [] {
      VersionsStep(w, steps[0]);
      VersionsRun(Apply(w, steps[0]), steps[1..]);
    }
  }

  /** Where every run starts: no pass under way. Sources may exist already. */
  ghost predicate Quiescent(w: World) {
    && (forall k :: k in w.store ==> w.store[k].rv < w.clock)
    && (forall r :: r in w.releases ==> w.releases[r].pc.Idle?)
  }

  /**
   No source is deleted while in use. After any run at all, with any number of releases, with
   conflicts, crashes and foreign writers that do as they please, a step of the operator that
   makes a source disappear finds that source naming no release.
   */
  lemma NoSourceDeletedInUse(start: World, steps: seq<Step>, s: Step, k: Key)
    requires Quiescent(start)
    requires Actor(s).Some? && k in Run(start, steps).store && k !in Apply(Run(start, steps), s).store
    ensures Registered(Run(start, steps).store[k].annotations) == {}
  {
    var w := Run(start, steps);
    VersionsRun(start, steps);
    assert Remembers(w, Actor(s).value);
  }
}
