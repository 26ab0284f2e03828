/**
 The states that the results on departures start from are reached: from an empty cluster by a release
 alone, and from there on from every state in which a release has settled.
 */
module Reachable {
  import opened Basics
  import opened RefNames
  import opened Protocol
  import opened Registrations
  import opened PhaseMachine
  import opened Leaks
  import opened Deletions
  import opened Convergence
  import opened Cleanups
  import opened Progress

  /** A release alone, settled on the source that it created itself. */
  function SettledAlone(q: string, a: Ref): World {
    World(1, map[a.ToKey() := Source(0, 0, Some(map[RELEASE_REFS := q]))],
          map[q := Release("ns", Inline(a), Status(Ready, Some(a), Some(a)), false, true, false, Idle(Advanced))])
  }

  /** It gets there from an empty cluster. */
  lemma ReachesSettled(q: string, a: Ref)
    ensures Run(Newborn(q, a), [Begin(q), Do(q), Begin(q), Do(q), Do(q)] + [Do(q), Begin(q), Do(q)])
            == SettledAlone(q, a)
  {
    ReachesEnsured(q, a);
    RunConcat(Newborn(q, a), [Begin(q), Do(q), Begin(q), Do(q), Do(q)], [Do(q), Begin(q), Do(q)]);
    var rel := JustEnsured(q, a).releases[q];
    var cut := rel.(status := Status(Disconnecting, None, Some(a)), pc := Idle(Advanced));
    var w1 := JustEnsured(q, a).(releases := map[q := cut]);
    var w2 := w1.(releases := map[q := cut.(pc := Commit(Status(Ready, Some(a), Some(a))))]);
    assert Apply(JustEnsured(q, a), Do(q)) == w1;
    assert Apply(w1, Begin(q)) == w2;
    assert Apply(w2, Do(q)) == SettledAlone(q, a);
    RunCons(JustEnsured(q, a), Do(q), [Begin(q), Do(q)]);
    RunTwo(w1, Begin(q), Do(q), []);
  }

  /** There it satisfies what every run keeps, and is the last user of its source. */
  lemma SettledAloneIsAtRest(api: Api, q: string, a: Ref)
    requires ValidName(q) && Uses(api, Some(a))
    ensures var w := SettledAlone(q, a);
            AtRest(api, w, q, a) && SettledOn(w, q, a) && Lists(w, a.ToKey(), q) && LastUser(w.store, a.ToKey(), q)
  {
    CreateRegistersOne(q);
  }

  lemma RunThree(w: World, s: Step, t: Step, u: Step)
    ensures Run(w, [s, t, u]) == Apply(Apply(Apply(w, s), t), u)
  {
    RunTwo(w, s, t, [u]);
    RunCons(Apply(Apply(w, s), t), u, []);
    assert [s, t, u] == [s, t] + [u] && [u] == [u] + [];
  }

  /** From every settled release that its source lists: a switch to chartRef, about to unregister. */
  lemma ReachesSwitchingAway(w: World, q: string, a: Ref, user: ChartRef)
    requires Orderly(w) && SettledOn(w, q, a) && w.releases[q].pc.Idle? && Lists(w, a.ToKey(), q)
    ensures SwitchingAway(Run(w, [EditSpec(q, UserRef(user)), Begin(q), Do(q)]), q, a)
  {
    var w1 := Apply(w, EditSpec(q, UserRef(user)));
    var w2 := Apply(w1, Begin(q));
    RunThree(w, EditSpec(q, UserRef(user)), Begin(q), Do(q));
    ListingStep(w, EditSpec(q, UserRef(user)));
    ListingStep(w1, Begin(q));
    ListingStep(w2, Do(q));
    GetCall(w2, q, a, ToCandidate);
  }

  /** A deletion, about to unregister from the last applied source, with nobody's registration changed. */
  lemma ReachesUnregister(w: World, q: string, a: Ref)
    requires Orderly(w) && SettledOn(w, q, a) && w.releases[q].pc.Idle? && Lists(w, a.ToKey(), q)
    ensures var w' := Run(w, [RequestDelete(q), Begin(q), Do(q)]);
            AboutToUnregister(w', q, a.ToKey()) && w'.store == w.store
  {
    var w1 := Apply(w, RequestDelete(q));
    var w2 := Apply(w1, Begin(q));
    RunThree(w, RequestDelete(q), Begin(q), Do(q));
    ListingStep(w, RequestDelete(q));
    ListingStep(w1, Begin(q));
    ListingStep(w2, Do(q));
    GetCall(w2, q, a, ToFinalizer);
  }

  /** A deletion in Disconnecting, from every settled release whose spec is edited to another source. */
  lemma ReachesDeletionInDisconnecting(api: Api, w: World, q: string, a: Ref, b: Ref)
    requires AtRest(api, w, q, a) && SettledOn(w, q, a) && Uses(api, Some(b)) && a.ToKey() != b.ToKey()
    ensures var w' := Apply(RunAll(Apply(w, EditSpec(q, Inline(b))), LonePasses(q, 2)), RequestDelete(q));
            && Orderly(w') && q in w'.releases && w'.releases[q].deleting && w'.releases[q].finalizer
            && w'.releases[q].pc.Idle? && w'.releases[q].status == Status(Disconnecting, Some(a), Some(b))
            && Lists(w', b.ToKey(), q)
  {
    var w1 := Apply(w, EditSpec(q, Inline(b)));
    ListingStep(w, EditSpec(q, Inline(b)));
    ShapeStep(api, w, EditSpec(q, Inline(b)), q);
    HoldsStep(api, w, EditSpec(q, Inline(b)), q);
    var w2 := Run(w1, LonePass(q));
    LonePassIsClean(api, w1, q, b);
    CleanPassAdvances(api, w1, LonePass(q), q, b);
    LonePassIsClean(api, w2, q, b);
    CleanPassAdvances(api, w2, LonePass(q), q, b);
    var w3 := Run(w2, LonePass(q));
    TwoLonePasses(w1, q);
    ListingStep(w3, RequestDelete(q));
    assert b.ToKey() in Relied(w3.releases[q].status);
  }

  lemma TwoLonePasses(w: World, q: string)
    ensures RunAll(w, LonePasses(q, 2)) == Run(Run(w, LonePass(q)), LonePass(q))
  {
    var one, two := LonePasses(q, 1), LonePasses(q, 2);
    assert two == [LonePass(q)] + one && two[1..] == one;
    assert one == [LonePass(q)] + LonePasses(q, 0) && one[1..] == [];
    assert RunAll(w, two) == RunAll(Run(w, LonePass(q)), one);
    assert RunAll(Run(w, LonePass(q)), one) == RunAll(Run(Run(w, LonePass(q)), LonePass(q)), []);
  }

  /** The last call of a switch to chartRef, from every settled release that has a HelmChart. */
  lemma ReachesHelmChartCleanup(w: World, q: string, a: Ref, user: ChartRef) returns (n: nat)
    requires Orderly(w) && SettledOn(w, q, a) && w.releases[q].pc.Idle? && w.releases[q].helmChart
    ensures var w' := Run(Apply(Apply(w, EditSpec(q, UserRef(user))), Begin(q)), Calls(q, n));
            && q in w'.releases && w'.releases[q].pc == DeleteHelmChart && w'.releases[q].helmChart
            && w'.releases[q].status == CLEARED && w'.releases[q].spec.UserRef?
            && !w'.releases[q].deleting && w'.releases[q].finalizer
  {
    var w0 := Apply(w, EditSpec(q, UserRef(user)));
    var w1 := Apply(w0, Begin(q));
    ListingStep(w, EditSpec(q, UserRef(user)));
    ListingStep(w0, Begin(q));
    var m := CleanupCalls(w1, q, a.ToKey());
    var w2 := Run(w1, Calls(q, m));
    LoneCleanup(w1, q, a, ToCandidate);
    CallsKeepOrder(w1, q, m);
    var m' := CleanupCalls(w2, q, a.ToKey());
    var w3 := Run(w2, Calls(q, m'));
    LoneCleanup(w2, q, a, ToCleared);
    n := m + m' + 1;
    SplitCalls(w1, q, m, n);
    SplitCalls(w2, q, m', m' + 1);
    RunOneCall(w3, q);
  }

  /** A settled release gets its HelmChart with its next pass, unless its source is an OCI repository. */
  lemma SettledAppliesHelmChart(w: World, q: string, a: Ref)
    requires Orderly(w) && SettledOn(w, q, a) && w.releases[q].pc.Idle? && a.kind != "OCIRepository"
    ensures var w' := Apply(Apply(w, Begin(q)), Do(q));
            SettledOn(w', q, a) && w'.releases[q].pc.Idle? && w'.releases[q].helmChart
  {
  }
}
