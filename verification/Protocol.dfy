/**
 The shared chart-source protocol as a transition system at the granularity of API calls.

 Many releases of one namespace share chart sources. Each release has at most one pass under
 way; passes of different releases, spec edits, deletions and foreign writers interleave at
 every API call. A step that fails, a pass cut short, a rejected write and a call that gave up
 after its conflict retries are all Abort.
 */
module Protocol {
  import opened Basics
  import opened RefNames

  /** What identifies a source object once the operator's API group and version are fixed. */
  datatype Key = Key(kind: string, namespace: string, name: string)

  /** ChartSourceReference, as kept in the status of a release. */
  datatype Ref = Ref(group: string, version: string, kind: string, namespace: string, name: string) {
    /** Objects are looked up by the configured group and version, so those two are dropped. */
    function ToKey(): Key {
      Key(kind, namespace, name)
    }
  }

  /** A stored source. Every write that changes it takes a resource version never used before. */
  datatype Source = Source(uid: nat, rv: nat, annotations: Annotations)

  datatype Phase = Unset | Ready | Pending | Disconnecting

  /** The chart source fields of ReleaseStatus. */
  datatype Status = Status(phase: Phase, lastApplied: Option<Ref>, candidate: Option<Ref>)

  const CLEARED := Status(Unset, None, None)

  /** spec.chartRef. */
  datatype ChartRef = ChartRef(kind: string, name: string, namespace: string)

  /** spec.chart with the source it builds, spec.chart with no source configured, or spec.chartRef. */
  datatype Spec =
    | Inline(source: Ref)
    | Unbuildable
    | UserRef(chartRef: ChartRef)

  /** The object a pass goes on to deploy from. */
  datatype Target =
    | OwnHelmChart
    | OciSource(name: string)
    | UserObject(chartRef: ChartRef)

  /** How the latest pass of a release ended. */
  datatype Outcome =
    | NotRun
    | Advanced
    | Failed
    | Resolved(target: Target)

  /** What follows a finished cleanup. */
  datatype After = ToReady | ToCandidate | ToCleared | ToFinalizer

  /** Where the pass of a release stands: the API call it makes next. */
  datatype Pc =
    | Idle(last: Outcome)
    | AddFinalizer
    | EnsureGet(ref: Ref)
    | EnsureCreate(ref: Ref)
    | EnsureUpdate(ref: Ref, seen: Source)
    | Ensured(ref: Ref)
    | CleanGet(ref: Ref, after: After)
    | CleanUpdate(ref: Ref, seen: Source, after: After)
    | CleanDelete(ref: Ref, uid: nat, rv: nat, after: After)
    | Commit(next: Status)
    | ApplyHelmChart
    | DeleteHelmChart
    | DropFinalizer

  datatype Release = Release(
    namespace: string,
    spec: Spec,
    status: Status,
    deleting: bool,
    finalizer: bool,
    helmChart: bool,
    pc: Pc)

  datatype World = World(clock: nat, store: map<Key, Source>, releases: map<string, Release>)

  datatype Step =
    | Begin(name: string)                            // a pass starts by reading its release
    | Do(name: string)                               // the pass makes its next API call
    | Abort(name: string)                            // the pass ends early
    | EditSpec(name: string, spec: Spec)
    | RequestDelete(name: string)
    | Touch(key: Key, annotations: Annotations)      // somebody else writes a source, its status included
    | Plant(key: Key, annotations: Annotations)      // somebody else creates a source
    | Wipe(key: Key)                                 // somebody else deletes a source

  // ----- Effects on the cluster -----

  function SetRelease(w: World, r: string, rel: Release): World {
    w.(releases := w.releases[r := rel])
  }

  function SetPc(w: World, r: string, pc: Pc): World
    requires r in w.releases
  {
    SetRelease(w, r, w.releases[r].(pc := pc))
  }

  function Create(w: World, key: Key, annotations: Annotations): World {
    w.(clock := w.clock + 1, store := w.store[key := Source(w.clock, w.clock, annotations)])
  }

  /** An update in place. Writing what is already there changes nothing, resource version included. */
  function Put(w: World, key: Key, annotations: Annotations): World
    requires key in w.store
  {
    if w.store[key].annotations == annotations then w else Rewrite(w, key, annotations)
  }

  /** A write under a new resource version, whatever else of the source it changes. */
  function Rewrite(w: World, key: Key, annotations: Annotations): World
    requires key in w.store
  {
    w.(clock := w.clock + 1, store := w.store[key := Source(w.store[key].uid, w.clock, annotations)])
  }

  function Remove(w: World, key: Key): World {
    w.(store := map k | k in w.store && k != key :: w.store[k])
  }

  /** Source k names release q in its annotation. */
  predicate Lists(w: World, k: Key, q: string) {
    k in w.store && q in Names(w.store[k].annotations)
  }

  // ----- One pass of one release -----

  /** The next call of a pass that has just read its release: resolveChartRef and reconcileDelete. */
  function FirstCall(rel: Release): Pc {
    if rel.deleting then
      if !rel.finalizer then Idle(Advanced) else Clean(rel.status, rel.status.lastApplied, ToFinalizer)
    else if !rel.finalizer then AddFinalizer
    else
      match rel.spec
      case UserRef(chartRef) =>
        if rel.status.lastApplied.Some? || rel.status.candidate.Some?
        then Clean(rel.status, rel.status.lastApplied, ToCandidate)
        else Idle(Resolved(UserObject(Defaulted(chartRef, rel.namespace))))
      case Unbuildable => Idle(Failed)
      case Inline(expected) =>
        match rel.status.phase
        case Unset => FirstCallReady(rel.status, expected)
        case Ready => FirstCallReady(rel.status, expected)
        case Pending =>
          if rel.status.candidate != Some(expected) then Commit(rel.status.(candidate := Some(expected)))
          else EnsureGet(expected)
        case Disconnecting =>
          if rel.status.lastApplied.Some? && rel.status.lastApplied != rel.status.candidate
          then Clean(rel.status, rel.status.lastApplied, ToReady)
          else Proceed(rel.status, ToReady)
  }

  function FirstCallReady(st: Status, expected: Ref): Pc {
    if st.lastApplied != Some(expected) then Commit(st.(phase := Pending, candidate := Some(expected)))
    else if expected.kind == "OCIRepository" then Idle(Resolved(OciSource(expected.name)))
    else ApplyHelmChart
  }

  function Defaulted(chartRef: ChartRef, namespace: string): ChartRef {
    if chartRef.namespace == "" then chartRef.(namespace := namespace) else chartRef
  }

  /** The first call of cleanupChartSourceRef; without a reference it returns at once. */
  function Clean(st: Status, ref: Option<Ref>, after: After): Pc {
    if ref.Some? then CleanGet(ref.value, after) else Proceed(st, after)
  }

  /** The call after a cleanup that returned without an error. */
  function Proceed(st: Status, after: After): Pc
  {
    match after
    case ToReady => Commit(Status(Ready, st.candidate, st.candidate))
    case ToCandidate => if st.candidate.Some? then CleanGet(st.candidate.value, ToCleared) else Commit(CLEARED)
    case ToCleared => Commit(CLEARED)
    case ToFinalizer => DropFinalizer
  }

  /** The write to the stored sources, if any, of the API call that the pass of r makes next. */
  function StoreEffect(w: World, r: string): World
    requires r in w.releases
  {
    match w.releases[r].pc
    case EnsureCreate(ref) =>
      if ref.ToKey() in w.store then w else Create(w, ref.ToKey(), Some(map[RELEASE_REFS := r]))
    case EnsureUpdate(ref, seen) =>
      if Current(w, ref, seen.rv) then Put(w, ref.ToKey(), Joined(seen, r)) else w
    case CleanUpdate(ref, seen, _) =>
      if Current(w, ref, seen.rv) then Put(w, ref.ToKey(), WithNames(seen.annotations, Left(seen, r))) else w
    case CleanDelete(ref, uid, rv, _) =>
      if Current(w, ref, rv) && w.store[ref.ToKey()].uid == uid then Remove(w, ref.ToKey()) else w
    case _ => w
  }

  /** The API server's resource version check. */
  predicate Current(w: World, ref: Ref, rv: nat) {
    ref.ToKey() in w.store && w.store[ref.ToKey()].rv == rv
  }

  /** The release after the API call its pass makes next, its own record written and the pass moved on. */
  function NextRelease(w: World, r: string): Release
    requires r in w.releases
  {
    var rel := w.releases[r];
    match rel.pc
    case Idle(_) => rel
    case AddFinalizer => rel.(finalizer := true, pc := Idle(Advanced))
    case EnsureGet(ref) =>
      rel.(pc := if ref.ToKey() in w.store then EnsureUpdate(ref, w.store[ref.ToKey()]) else EnsureCreate(ref))
    case EnsureCreate(ref) =>
      rel.(pc := if ref.ToKey() in w.store then Idle(Failed) else Ensured(ref))
    case EnsureUpdate(ref, seen) =>
      rel.(pc := if Current(w, ref, seen.rv) then Ensured(ref)
                 else if ref.ToKey() in w.store then EnsureGet(ref)
                 else Idle(Failed))
    case Ensured(_) =>
      rel.(status := rel.status.(phase := Disconnecting), pc := Idle(Advanced))
    case CleanGet(ref, after) =>
      rel.(pc := if Lists(w, ref.ToKey(), r) then CleanUpdate(ref, w.store[ref.ToKey()], after)
                 else Proceed(rel.status, after))
    case CleanUpdate(ref, seen, after) =>
      rel.(pc := if Current(w, ref, seen.rv) then
                   var now := StoreEffect(w, r).store[ref.ToKey()];
                   if Left(seen, r) == [] then CleanDelete(ref, now.uid, now.rv, after) else Proceed(rel.status, after)
                 else if ref.ToKey() in w.store then CleanGet(ref, after)
                 else Idle(Failed))
    case CleanDelete(ref, uid, rv, after) =>
      rel.(pc := if ref.ToKey() !in w.store || (Current(w, ref, rv) && w.store[ref.ToKey()].uid == uid)
                 then Proceed(rel.status, after) else Idle(Failed))
    case Commit(next) =>
      rel.(status := next, pc := if next == CLEARED then DeleteHelmChart else Idle(Advanced))
    case ApplyHelmChart => rel.(helmChart := true, pc := Idle(Resolved(OwnHelmChart)))
    case DeleteHelmChart => rel.(helmChart := false, pc := Idle(Advanced))
    case DropFinalizer => rel.(finalizer := false, pc := Idle(Advanced))
  }

  /** The annotations a registering pass writes back. */
  function Joined(seen: Source, r: string): Annotations {
    WithNames(seen.annotations, AddName(Names(seen.annotations), r))
  }

  /** The names an unregistering pass leaves. */
  function Left(seen: Source, r: string): seq<string> {
    if r in Names(seen.annotations) then RemoveName(Names(seen.annotations), r) else Names(seen.annotations)
  }

  // ----- Runs -----

  function Apply(w: World, s: Step): World {
    match s
    case Begin(r) =>
      if r in w.releases && w.releases[r].pc.Idle? then SetPc(w, r, FirstCall(w.releases[r])) else w
    case Do(r) => if r in w.releases then SetRelease(StoreEffect(w, r), r, NextRelease(w, r)) else w
    case Abort(r) => if r in w.releases && !w.releases[r].pc.Idle? then SetPc(w, r, Idle(Failed)) else w
    case EditSpec(r, spec) => if r in w.releases then SetRelease(w, r, w.releases[r].(spec := spec)) else w
    case RequestDelete(r) => if r in w.releases then SetRelease(w, r, w.releases[r].(deleting := true)) else w
    case Touch(key, annotations) => if key in w.store then Rewrite(w, key, annotations) else w
    case Plant(key, annotations) => if key in w.store then w else Create(w, key, annotations)
    case Wipe(key) => Remove(w, key)
  }

  function Run(w: World, steps: seq<Step>): World
    decreases steps
  {
    if steps == [] then w else Run(Apply(w, steps[0]), steps[1..])
  }

  lemma {:induction false} RunConcat(w: World, first: seq<Step>, second: seq<Step>)
    ensures Run(w, first + second) == Run(Run(w, first), second)
    decreases first
  {
    if first == [] {
      assert first + second == second;
    } else {
      assert (first + second)[1..] == first[1..] + second;
      RunConcat(Apply(w, first[0]), first[1..], second);
    }
  }

  lemma RunCons(w: World, s: Step, rest: seq<Step>)
    ensures Run(w, [s] + rest) == Run(Apply(w, s), rest)
  {
    assert ([s] + rest)[1..] == rest;
  }

  lemma RunTwo(w: World, s: Step, t: Step, rest: seq<Step>)
    ensures Run(w, [s, t] + rest) == Run(Apply(Apply(w, s), t), rest)
  {
    assert [s, t] + rest == [s] + ([t] + rest);
    RunCons(w, s, [t] + rest);
    RunCons(Apply(w, s), t, rest);
  }

  // ----- Observations -----

  /** All the sources that name release q. */
  function Listing(w: World, q: string): set<Key> {
    set k | k in w.store && Lists(w, k, q)
  }

  function KeyOf(ref: Option<Ref>): set<Key> {
    if ref.Some? then {ref.value.ToKey()} else {}
  }

  /** Somebody else's writes leave the release-refs annotation alone and delete no source. */
  predicate Benign(w: World, s: Step) {
    match s
    case Touch(key, annotations) => key in w.store ==> RefText(annotations) == RefText(w.store[key].annotations)
    case Plant(_, annotations) => RefText(annotations).None?
    case Wipe(_) => false
    case _ => true
  }

  function RefText(annotations: Annotations): Option<string> {
    AnnotationAt(annotations, RELEASE_REFS)
  }

  /** Every step of the run satisfies a condition in the state it is taken in. */
  ghost predicate Along(w: World, steps: seq<Step>, ok: (World, Step) -> bool)
    decreases steps
  {
    steps != [] ==> ok(w, steps[0]) && Along(Apply(w, steps[0]), steps[1..], ok)
  }
}
