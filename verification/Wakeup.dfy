/** Waking a release that waits for its source. */
module Wakeup {
  import opened Basics
  import opened Conditions

  datatype Artifact = Artifact(revision: string)

  /** A HelmChart as watched: its artifact and conditions. */
  datatype Watched = Watched(artifact: Option<Artifact>, conditions: seq<Condition>)

  /**
   conditions.IsReady and conditions.IsReconciling of the Flux runtime library. They also look at
   other conditions; all that is relied on is that what is ready has its Ready condition true.
   */
  datatype Flux = Flux(isReady: seq<Condition> -> bool, isReconciling: seq<Condition> -> bool)

  ghost predicate ReadyMeansReady(flux: Flux) {
    forall conditions :: flux.isReady(conditions) ==> IsTrue(conditions, READY)
  }

  /** checkReadyCondition: the first Ready entry decides; without one the source is not ready. */
  method CheckReadyCondition(s: Watched) returns (ready: bool)
    ensures ready == IsTrue(s.conditions, READY)
  {
    for i := 0 to |s.conditions|
      invariant Flag(s.conditions, READY) == Flag(s.conditions[i..], READY)
    {
      if s.conditions[i].kind == READY {
        return s.conditions[i].holds;
      }
    }
    return false;
  }

  /** SourceRevisionChangePredicate.Update. */
  predicate PassesUpdate(flux: Flux, before: Watched, after: Watched) {
    || (before.artifact.None? && after.artifact.Some?)
    || (before.artifact.Some? && after.artifact.Some?
        && before.artifact.value.revision != after.artifact.value.revision)
    || (!flux.isReady(before.conditions) && flux.isReady(after.conditions))
  }

  /** An update passes if and only if it brings an artifact that was not there before, or a turn to ready. */
  lemma OnlyNewsPasses(flux: Flux, before: Watched, after: Watched)
    ensures PassesUpdate(flux, before, after) <==>
            || (after.artifact.Some? && before.artifact != after.artifact)
            || (!flux.isReady(before.conditions) && flux.isReady(after.conditions))
  {
  }

  /** What the watch looks at in a release that the source index lists for the chart. */
  datatype Waiter = Waiter(name: string, conditions: seq<Condition>, attemptedRevision: string)

  predicate ReadyOrReconciling(flux: Flux, w: Waiter) {
    flux.isReady(w.conditions) || flux.isReconciling(w.conditions)
  }

  /** The release is up to date with the artifact, as the watch judges it. */
  predicate UpToDate(flux: Flux, s: Watched, w: Waiter) {
    s.artifact.Some? && ReadyOrReconciling(flux, w) && s.artifact.value.revision == w.attemptedRevision
  }

  /** Ready or reconciling, and with the artifact at the revision it attempted last. */
  lemma UpToDateIff(flux: Flux, s: Watched, w: Waiter)
    ensures UpToDate(flux, s, w) <==>
            && (flux.isReady(w.conditions) || flux.isReconciling(w.conditions))
            && s.artifact == Some(Artifact(w.attemptedRevision))
  {
  }

  /** requestsForHelmChartChange. */
  method RequestsForHelmChartChange(flux: Flux, s: Watched, listed: seq<Waiter>) returns (requests: seq<string>)
    ensures forall q :: q in requests <==>
              s.artifact.Some? && exists w :: w in listed && w.name == q && !UpToDate(flux, s, w)
  {
    requests := [];
    if s.artifact.None? {
      return;
    }
    for i := 0 to |listed|
      invariant forall q :: q in requests <==> exists w :: w in listed[..i] && w.name == q && !UpToDate(flux, s, w)
    {
      assert listed[..i + 1] == listed[..i] + [listed[i]];
      if ReadyOrReconciling(flux, listed[i]) && s.artifact.value.revision == listed[i].attemptedRevision {
        continue;
      }
      requests := requests + [listed[i].name];
    }
    assert listed[..|listed|] == listed;
  }

  /** The update from before to after enqueues the release. */
  predicate Enqueues(flux: Flux, before: Watched, after: Watched, w: Waiter) {
    PassesUpdate(flux, before, after) && after.artifact.Some? && !UpToDate(flux, after, w)
  }

  /** The event at which a source first turns ready. */
  lemma {:induction false} TurnsReady(flux: Flux, history: seq<Watched>) returns (i: nat)
    requires |history| >= 2 && !flux.isReady(history[0].conditions) && flux.isReady(history[|history| - 1].conditions)
    ensures i + 1 < |history| && !flux.isReady(history[i].conditions) && flux.isReady(history[i + 1].conditions)
    decreases history
  {
    if flux.isReady(history[1].conditions) {
      i := 0;
    } else {
      var j := TurnsReady(flux, history[1..]);
      i := j + 1;
    }
  }

  /** The position from which on the source kept the artifact it ends with. */
  lemma {:induction false} LastArrival(history: seq<Watched>, artifact: Artifact) returns (j: nat)
    requires history != [] && history[|history| - 1].artifact == Some(artifact)
    ensures j < |history| && forall t :: j <= t < |history| ==> history[t].artifact == Some(artifact)
    ensures j > 0 ==> history[j - 1].artifact != Some(artifact)
  {
    j := |history| - 1;
    if j > 0 && history[j - 1].artifact == Some(artifact) {
      j := LastArrival(history[..j], artifact);
    }
  }

  /** A pass found the Ready condition not true; then the source was updated until it was ready. */
  ghost predicate Awaited(flux: Flux, history: seq<Watched>) {
    && ReadyMeansReady(flux) && |history| >= 2
    && !IsTrue(history[0].conditions, READY) && flux.isReady(history[|history| - 1].conditions)
    && forall s :: s in history && flux.isReady(s.conditions) ==> s.artifact.Some?
  }

  /** The updates of the history enqueue the release. */
  ghost predicate Woken(flux: Flux, history: seq<Watched>, w: Waiter) {
    exists i: nat :: i + 1 < |history| && Enqueues(flux, history[i], history[i + 1], w)
  }

  /**
   Waiting on a source wakes up. After a pass that found the source not ready and scheduled nothing,
   any sequence of updates that ends ready contains one that passes the predicate with an artifact;
   and it enqueues the release, at that update or another, unless the release is Ready or Reconciling
   and has attempted the very revision the source ends with.
   */
  lemma WaitingWakesUp(flux: Flux, history: seq<Watched>, w: Waiter)
    requires Awaited(flux, history)
    ensures exists i: nat ::
              i + 1 < |history| && PassesUpdate(flux, history[i], history[i + 1]) && history[i + 1].artifact.Some?
    ensures !UpToDate(flux, history[|history| - 1], w) ==> Woken(flux, history, w)
  {
    var i := TurnsReady(flux, history);
    assert history[i + 1] in history && history[|history| - 1] in history;
    assert PassesUpdate(flux, history[i], history[i + 1]);
    if !UpToDate(flux, history[|history| - 1], w) {
      var j := LastArrival(history, history[|history| - 1].artifact.value);
      if j > 0 {
        assert Enqueues(flux, history[j - 1], history[(j - 1) + 1], w);
      } else {
        assert Enqueues(flux, history[i], history[i + 1], w);
      }
    }
  }

  /**
   Exactly when a wake-up is lost, for a source that keeps one revision: if and only if the release,
   Ready or Reconciling, last attempted that revision. A change of its spec that was met by a source
   not ready is then not looked at again.
   */
  lemma WakeUpLost(flux: Flux, history: seq<Watched>, w: Waiter, revision: string)
    requires Awaited(flux, history)
    requires forall s :: s in history && s.artifact.Some? ==> s.artifact.value.revision == revision
    ensures Woken(flux, history, w) <==>
            !((flux.isReady(w.conditions) || flux.isReconciling(w.conditions)) && w.attemptedRevision == revision)
  {
    WaitingWakesUp(flux, history, w);
    assert history[|history| - 1] in history;
    if i: nat :| i + 1 < |history| && Enqueues(flux, history[i], history[i + 1], w) {
      assert history[i + 1] in history;
    }
  }
}
