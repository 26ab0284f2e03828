/**
 What a pass achieves when it is left alone: it ends without a failure after at most eight calls.
 So the results about passes that end well speak of passes that exist, from every state that
 failures, conflicts and edits can lead to.
 */
module Progress {
  import opened Basics
  import opened Protocol
  import opened Registrations
  import opened PhaseMachine
  import opened Cleanups
  import opened Convergence

  /** The next call of q's pass will not be refused: what it remembers is current. */
  ghost predicate Smooth(w: World, q: string) {
    q in w.releases &&
    match w.releases[q].pc
    case EnsureCreate(ref) => ref.ToKey() !in w.store
    case EnsureUpdate(ref, seen) => Current(w, ref, seen.rv)
    case CleanUpdate(ref, seen, _) => Current(w, ref, seen.rv)
    case CleanDelete(ref, uid, rv, _) => Current(w, ref, rv) && w.store[ref.ToKey()].uid == uid
    case Idle(last) => last != Failed
    case _ => true
  }

  /** A bound on the calls a pass still makes. */
  function CallsLeft(pc: Pc): nat {
    match pc
    case Idle(_) => 0
    case EnsureGet(_) => 3
    case EnsureCreate(_) => 2
    case EnsureUpdate(_, _) => 2
    case CleanGet(_, after) => CallsAfter(after) + 3
    case CleanUpdate(_, _, after) => CallsAfter(after) + 2
    case CleanDelete(_, _, _, after) => CallsAfter(after) + 1
    case Commit(_) => 2
    case _ => 1
  }

  function CallsAfter(after: After): nat {
    match after
    case ToCandidate => 5
    case ToFinalizer => 1
    case _ => 2
  }

  lemma SmoothCall(w: World, q: string)
    requires Smooth(w, q)
    ensures Smooth(Apply(w, Do(q)), q)
    ensures var left := CallsLeft(w.releases[q].pc);
            CallsLeft(Apply(w, Do(q)).releases[q].pc) <= if left == 0 then 0 else left - 1
  {
  }

  /** The next call meets something that makes it fail for good, the release being in the middle of a pass. */
  predicate Doomed(w: World, q: string)
    requires q in w.releases
  {
    match w.releases[q].pc
    case EnsureCreate(ref) => ref.ToKey() in w.store
    case EnsureUpdate(ref, _) => ref.ToKey() !in w.store
    case CleanUpdate(ref, _, _) => ref.ToKey() !in w.store
    case CleanDelete(ref, uid, rv, _) =>
      ref.ToKey() in w.store && (w.store[ref.ToKey()].uid != uid || w.store[ref.ToKey()].rv != rv)
    case _ => false
  }

  /**
   Exactly which calls fail a pass and which are tried again: a create that finds the source, an update
   that does not, a delete that finds another version; an update that finds another version goes back to
   its read.
   */
  lemma CallFailsIff(w: World, q: string)
    requires q in w.releases && !w.releases[q].pc.Idle?
    ensures NextRelease(w, q).pc == Idle(Failed) <==> Doomed(w, q)
    ensures var pc, pc' := w.releases[q].pc, NextRelease(w, q).pc;
            && (pc.EnsureUpdate? ==>
                  (pc' == EnsureGet(pc.ref) <==> pc.ref.ToKey() in w.store && w.store[pc.ref.ToKey()].rv != pc.seen.rv))
            && (pc.CleanUpdate? && pc.ref.ToKey() in w.store && w.store[pc.ref.ToKey()].rv != pc.seen.rv ==>
                  pc' == CleanGet(pc.ref, pc.after))
  {
  }

  lemma SmoothBegin(w: World, q: string)
    requires q in w.releases && w.releases[q].pc.Idle? && FirstCall(w.releases[q]) != Idle(Failed)
    ensures Smooth(Apply(w, Begin(q)), q) && CallsLeft(Apply(w, Begin(q)).releases[q].pc) <= 8
  {
  }

  lemma {:induction false} SmoothRun(w: World, q: string, n: nat)
    requires Smooth(w, q) && CallsLeft(w.releases[q].pc) <= n
    ensures Smooth(Run(w, Calls(q, n)), q) && Run(w, Calls(q, n)).releases[q].pc.Idle?
    decreases n
  {
    if n > 0 {
      SmoothCall(w, q);
      RunCons(w, Do(q), Calls(q, n - 1));
      SmoothRun(Apply(w, Do(q)), q, n - 1);
    }
  }

  /** A pass that nothing interrupts ends, and without a failure, unless spec.chart names no source. */
  lemma LonePassEndsWell(w: World, q: string)
    requires q in w.releases && w.releases[q].pc.Idle? && FirstCall(w.releases[q]) != Idle(Failed)
    ensures var w' := Run(w, LonePass(q));
            q in w'.releases && w'.releases[q].pc.Idle? && w'.releases[q].pc.last != Failed
  {
    RunCons(w, Begin(q), Calls(q, 8));
    SmoothBegin(w, q);
    SmoothRun(Apply(w, Begin(q)), q, 8);
  }

  lemma LonePassEnds(w: World, q: string)
    requires q in w.releases && w.releases[q].pc.Idle?
    ensures q in Run(w, LonePass(q)).releases && Run(w, LonePass(q)).releases[q].pc.Idle?
  {
    if FirstCall(w.releases[q]).Idle? {
      RunCons(w, Begin(q), Calls(q, 8));
      IdleStays(Apply(w, Begin(q)), q, 8);
    } else {
      LonePassEndsWell(w, q);
    }
  }

  lemma {:induction false} CallsAreRest(api: Api, w: World, q: string, steps: seq<Step>)
    requires forall i :: 0 <= i < |steps| ==> steps[i] == Do(q)
    ensures Rest(api, w, steps, q)
    decreases steps
  {
    if steps != [] {
      assert WithinPass(steps[0], q) && KeepsApi(api, steps[0], q);
      CallsAreRest(api, Apply(w, steps[0]), q, steps[1..]);
    }
  }

  lemma LonePassIsClean(api: Api, w: World, q: string, expected: Ref)
    requires AtRest(api, w, q, expected)
    ensures CleanPass(api, w, LonePass(q), q)
  {
    LonePassEndsWell(w, q);
    CallsAreRest(api, Apply(w, Begin(q)), q, Calls(q, 8));
    assert LonePass(q)[1..] == Calls(q, 8);
  }

  function LonePasses(q: string, n: nat): (passes: seq<seq<Step>>)
    ensures |passes| == n
  {
    if n == 0 then [] else [LonePass(q)] + LonePasses(q, n - 1)
  }

  lemma {:induction false} LonePassesAreClean(api: Api, w: World, q: string, expected: Ref, n: nat)
    requires AtRest(api, w, q, expected)
    ensures CleanPasses(api, w, LonePasses(q, n), q)
    decreases n
  {
    if n > 0 {
      LonePassIsClean(api, w, q, expected);
      CleanPassAdvances(api, w, LonePass(q), q, expected);
      LonePassesAreClean(api, Run(w, LonePass(q)), q, expected, n - 1);
      assert LonePasses(q, n)[1..] == LonePasses(q, n - 1);
    }
  }

  lemma {:induction false} InlineIsBenign(api: Api, w: World, steps: seq<Step>, q: string)
    requires InlineRun(api, w, steps, q)
    ensures Along(w, steps, Benign)
    decreases steps
  {
    if steps != [] {
      InlineIsBenign(api, Apply(w, steps[0]), steps[1..], q);
    }
  }

  /**
   The phase machine recovers. After any run in which spec.chart stays set, with crashes, refused
   calls, conflicts and edits, any four passes left alone make the release Ready on the source its
   spec now names, and that source exists and lists it.
   */
  lemma FourLonePassesSettle(api: Api, start: World, steps: seq<Step>, q: string, expected: Ref, n: nat)
    requires Initial(start) && q in start.releases && Created(api, start.releases[q])
    requires InlineRun(api, start, steps, q)
    requires var w := Run(start, steps);
             q in w.releases ==>
               w.releases[q].pc.Idle? && w.releases[q].finalizer && w.releases[q].spec == Inline(expected)
    requires n >= 4
    ensures var w := RunAll(Run(start, steps), LonePasses(q, n));
            && q in w.releases && w.releases[q].status.phase == Ready
            && w.releases[q].status.lastApplied == Some(expected) && Lists(w, expected.ToKey(), q)
  {
    var w := Run(start, steps);
    HoldsRun(api, start, steps, q);
    InlineIsBenign(api, start, steps, q);
    OrderlyRun(start, steps);
    assert AtRest(api, w, q, expected);
    LonePassesAreClean(api, w, q, expected, n);
    PhaseMachineConverges(api, w, LonePasses(q, n), q, expected);
  }
}
