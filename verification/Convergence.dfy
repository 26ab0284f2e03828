/** With a fixed spec.chart, passes that end without a failure settle the phase machine. */
module Convergence {
  import opened Basics
  import opened Protocol
  import opened SourceSafety
  import opened Registrations
  import opened PhaseMachine

  /** What one pass makes of the status when none of its calls fails. */
  function PhaseStep(st: Status, expected: Ref): Status {
    match st.phase
    case Unset => PhaseStepReady(st, expected)
    case Ready => PhaseStepReady(st, expected)
    case Pending =>
      if st.candidate == Some(expected) then st.(phase := Disconnecting) else st.(candidate := Some(expected))
    case Disconnecting => Status(Ready, st.candidate, st.candidate)
  }

  function PhaseStepReady(st: Status, expected: Ref): Status {
    if st.lastApplied == Some(expected) then st else st.(phase := Pending, candidate := Some(expected))
  }

  /** Status-writing passes still to come. */
  function Distance(st: Status, expected: Ref): nat {
    match st.phase
    case Unset => if st.lastApplied == Some(expected) then 0 else 3
    case Ready => if st.lastApplied == Some(expected) then 0 else 3
    case Pending => if st.candidate == Some(expected) then 2 else 3
    case Disconnecting => if st.candidate == Some(expected) then 1 else 4
  }

  /** The pass of q, begun in status st with source expected in its spec, at any of its calls. */
  ghost predicate Midway(rel: Release, st: Status, expected: Ref) {
    match rel.pc
    case EnsureGet(_) => rel.status == st && st.phase == Pending && st.candidate == Some(expected)
    case EnsureCreate(_) => rel.status == st && st.phase == Pending && st.candidate == Some(expected)
    case EnsureUpdate(_, _) => rel.status == st && st.phase == Pending && st.candidate == Some(expected)
    case Ensured(_) => rel.status == st && st.phase == Pending && st.candidate == Some(expected)
    case CleanGet(_, after) => rel.status == st && st.phase == Disconnecting && after == ToReady
    case CleanUpdate(_, _, after) => rel.status == st && st.phase == Disconnecting && after == ToReady
    case CleanDelete(_, _, _, after) => rel.status == st && st.phase == Disconnecting && after == ToReady
    case Commit(next) =>
      rel.status == st && next == PhaseStep(st, expected) && next != CLEARED && Distance(st, expected) > 0
    case ApplyHelmChart => rel.status == st && Distance(st, expected) == 0 && expected.kind != "OCIRepository"
    case Idle(Failed) => true
    case Idle(Advanced) => rel.status == PhaseStep(st, expected) && Distance(st, expected) > 0
    case Idle(Resolved(target)) =>
      && rel.status == st && Distance(st, expected) == 0
      && target == if expected.kind == "OCIRepository" then OciSource(expected.name) else OwnHelmChart
    case _ => false
  }

  lemma MidwayBegins(api: Api, rel: Release, expected: Ref)
    requires Shape(api, rel) && rel.pc.Idle? && rel.finalizer && !rel.deleting && rel.spec == Inline(expected)
    ensures Midway(rel.(pc := FirstCall(rel)), rel.status, expected)
  {
  }

  lemma MidwayCall(w: World, q: string, st: Status, expected: Ref)
    requires q in w.releases && Midway(w.releases[q], st, expected)
    ensures Midway(NextRelease(w, q), st, expected)
  {
  }

  /** No second pass of q and no edit of q: one pass, interleaved with anything else. */
  predicate WithinPass(s: Step, q: string) {
    s != Begin(q) && !(s.EditSpec? && s.name == q) && s != RequestDelete(q)
  }

  ghost predicate Rest(api: Api, w: World, steps: seq<Step>, q: string) {
    Along(w, steps, (v, s) => Benign(v, s) && KeepsApi(api, s, q) && WithinPass(s, q))
  }

  lemma {:induction false} MidwayRun(api: Api, w: World, steps: seq<Step>, q: string, st: Status, expected: Ref)
    requires Rest(api, w, steps, q) && q in w.releases && Midway(w.releases[q], st, expected)
    requires w.releases[q].spec == Inline(expected) && !w.releases[q].deleting && w.releases[q].finalizer
    ensures var w' := Run(w, steps);
            && q in w'.releases && Midway(w'.releases[q], st, expected)
            && w'.releases[q].spec == Inline(expected) && !w'.releases[q].deleting && w'.releases[q].finalizer
    decreases steps
  {
    if steps != [] {
      StepIsFresher(w, steps[0]);
      if steps[0] == Do(q) {
        MidwayCall(w, q, st, expected);
      }
      MidwayRun(api, Apply(w, steps[0]), steps[1..], q, st, expected);
    }
  }

  /** Each pass that settles nothing brings the release exactly one pass closer; a settled one stays. */
  lemma DistanceShrinks(st: Status, expected: Ref)
    ensures Distance(st, expected) <= 4
    ensures Distance(st, expected) > 0 ==> Distance(PhaseStep(st, expected), expected) == Distance(st, expected) - 1
    ensures (st.phase == Unset ==> st == CLEARED) ==>
              (Distance(st, expected) == 0 <==> st.phase == Ready && st.lastApplied == Some(expected))
    ensures Distance(st, expected) == 0 ==> PhaseStep(st, expected) == st
  {
  }

  /** From w, one whole pass of q that ends without a failure. */
  ghost predicate CleanPass(api: Api, w: World, pass: seq<Step>, q: string) {
    && pass != [] && pass[0] == Begin(q) && Rest(api, Apply(w, pass[0]), pass[1..], q)
    && var w' := Run(w, pass);
    q in w'.releases && w'.releases[q].pc.Idle? && w'.releases[q].pc.last != Failed
  }

  ghost predicate CleanPasses(api: Api, w: World, passes: seq<seq<Step>>, q: string)
    decreases passes
  {
    passes != [] ==> CleanPass(api, w, passes[0], q) && CleanPasses(api, Run(w, passes[0]), passes[1..], q)
  }

  function RunAll(w: World, passes: seq<seq<Step>>): World
    decreases passes
  {
    if passes == [] then w else RunAll(Run(w, passes[0]), passes[1..])
  }

  /** A release between passes, with what every run keeps about it. */
  ghost predicate AtRest(api: Api, w: World, q: string, expected: Ref) {
    && Orderly(w) && q in w.releases && Shape(api, w.releases[q]) && Holds(w, q)
    && w.releases[q].pc.Idle? && w.releases[q].finalizer && w.releases[q].spec == Inline(expected)
  }

  lemma {:induction false} RestIsInline(api: Api, w: World, steps: seq<Step>, q: string)
    requires Rest(api, w, steps, q)
    ensures InlineRun(api, w, steps, q) && Along(w, steps, Benign)
    decreases steps
  {
    if steps != [] {
      RestIsInline(api, Apply(w, steps[0]), steps[1..], q);
    }
  }

  /** One pass without a failure performs exactly one phase step, whatever the rest of the cluster does. */
  lemma CleanPassAdvances(api: Api, w: World, pass: seq<Step>, q: string, expected: Ref)
    requires AtRest(api, w, q, expected) && CleanPass(api, w, pass, q)
    ensures AtRest(api, Run(w, pass), q, expected)
    ensures Run(w, pass).releases[q].status == PhaseStep(w.releases[q].status, expected)
  {
    var rel, begun := w.releases[q], Apply(w, Begin(q));
    MidwayBegins(api, rel, expected);
    MidwayRun(api, begun, pass[1..], q, rel.status, expected);
    RestIsInline(api, begun, pass[1..], q);
    ListingStep(w, Begin(q));
    ShapeStep(api, w, Begin(q), q);
    HoldsStep(api, w, Begin(q), q);
    OrderlyRun(begun, pass[1..]);
    HoldsRun(api, begun, pass[1..], q);
    DistanceShrinks(rel.status, expected);
  }

  /**
   Convergence. With a fixed spec.chart, after as many passes without a failure as the distance
   says, four at most, the release is Ready with the expected source last applied, existing and
   listing it; and further passes change none of the three source fields.
   */
  lemma {:induction false} PhaseMachineConverges(api: Api, w: World, passes: seq<seq<Step>>, q: string, expected: Ref)
    requires AtRest(api, w, q, expected) && CleanPasses(api, w, passes, q)
    ensures AtRest(api, RunAll(w, passes), q, expected)
    ensures var st, w' := w.releases[q].status, RunAll(w, passes);
            var st', n := w'.releases[q].status, Distance(st, expected);
            && n <= 4
            && Distance(st', expected) == (if |passes| <= n then n - |passes| else 0)
            && (|passes| >= n ==>
                  st'.phase == Ready && st'.lastApplied == Some(expected) && Lists(w', expected.ToKey(), q))
            && (n == 0 ==> st' == st)
    decreases passes
  {
    DistanceShrinks(w.releases[q].status, expected);
    if passes != [] {
      CleanPassAdvances(api, w, passes[0], q, expected);
      PhaseMachineConverges(api, Run(w, passes[0]), passes[1..], q, expected);
    }
  }
}
