/**
 The operator's own code for chart sources, as one pass of one release runs it against an API
 server that everybody else uses at the same time. Before each call the rest of the cluster
 takes any number of steps, and any call may be refused. The pass keeps its place in the world
 as an auxiliary variable, and every execution is a run of the transition system: what is proved
 of all runs holds of this code.
 */
module Operator {
  import opened Basics
  import opened RefNames
  import opened Protocol
  import opened SourceSafety
  import opened PhaseMachine
  import opened Convergence
  import opened Cleanups
  import opened Progress

  datatype GetReply = Found(source: Source) | Missing | GetError

  datatype WriteReply = Written(source: Source) | Conflict | Refused

  /** What one try of a retried call comes to; only a conflict is tried again. */
  datatype Verdict = Done | Again | Error

  /** What one try of the cleanup comes to: with the source it updated and the names left in it, if it did. */
  datatype Tried = NothingToDo | Unregistered(source: Source, left: seq<string>) | TryAgain | TryFailed

  /** Where a cleanup stands after a try. */
  function PcAfter(tried: Tried, ref: Ref, after: After, st: Status): Pc {
    match tried
    case NothingToDo => Proceed(st, after)
    case Unregistered(source, left) =>
      if left == [] then CleanDelete(ref, source.uid, source.rv, after) else Proceed(st, after)
    case TryAgain => CleanGet(ref, after)
    case TryFailed => Idle(Failed)
  }

  /** retry.DefaultRetry. */
  const MAX_TRIES := 5

  /** A step of the rest of the cluster, which may also edit or delete this release. */
  predicate IsOthers(s: Step, me: string) {
    s != Begin(me) && s != Do(me) && s != Abort(me)
  }

  lemma OthersKeepPass(w: World, s: Step, me: string)
    requires me in w.releases && IsOthers(s, me)
    ensures me in Apply(w, s).releases
    ensures SamePass(w.releases[me], Apply(w, s).releases[me])
  {
    StepIsFresher(w, s);
  }

  lemma RunOneMore(w: World, steps: seq<Step>, i: nat)
    requires i < |steps|
    ensures Run(w, steps[..i + 1]) == Apply(Run(w, steps[..i]), steps[i])
  {
    RunConcat(w, steps[..i], [steps[i]]);
    RunCons(Run(w, steps[..i]), steps[i], []);
    assert steps[..i + 1] == steps[..i] + [steps[i]] && [steps[i]] == [steps[i]] + [];
  }

  /** All of a release but what its users edit. */
  ghost predicate SamePass(a: Release, b: Release) {
    a.pc == b.pc && a.status == b.status && a.finalizer == b.finalizer && a.namespace == b.namespace
  }

  /** A position in a history, named so that histories are looked into only where it is mentioned. */
  predicate At(i: nat) {
    true
  }

  /**
   The write that turned `before` into `after` is the next call of the pass, which moves on to `next`. As
   with histories, the call is looked into only where a position is mentioned.
   */
  ghost predicate IsCall(before: World, me: string, after: World, next: Pc) {
    me in before.releases && after.releases == before.releases &&
    forall i: nat {:trigger At(i)} :: At(i) ==>
      after == StoreEffect(before, me) && NextRelease(before, me) == before.releases[me].(pc := next)
  }

  /** The steps lead from the origin through the worlds of the history to w. */
  ghost predicate Reached(origin: World, trace: seq<Step>, history: seq<World>, w: World) {
    && |history| == |trace| + 1 && history[0] == origin && history[|trace|] == w
    && forall i: nat {:trigger At(i)} :: At(i) && i < |trace| ==> history[i + 1] == Apply(history[i], trace[i])
  }

  lemma Reaches(origin: World, trace: seq<Step>, history: seq<World>, w: World, s: Step)
    requires Reached(origin, trace, history, w)
    ensures Reached(origin, trace + [s], history + [Apply(w, s)], Apply(w, s))
  {
  }

  lemma {:induction false} ReachedIsRun(origin: World, trace: seq<Step>, history: seq<World>, w: World)
    requires Reached(origin, trace, history, w)
    ensures w == Run(origin, trace)
    decreases trace
  {
    if trace != [] {
      assert At(0);
      forall i: nat | i < |trace| - 1 ensures history[1..][i + 1] == Apply(history[1..][i], trace[1..][i]) {
        assert At(i + 1);
      }
      ReachedIsRun(Apply(origin, trace[0]), trace[1..], history[1..], w);
    }
  }

  function Entry(w: World, k: Key): Option<Source> {
    if k in w.store then Some(w.store[k]) else None
  }

  /** One if source k was written, created or removed on the way from w to w', and zero if not. */
  function Rewritten(w: World, w': World, k: Key): nat {
    if Entry(w, k) != Entry(w', k) then 1 else 0
  }

  /** One if source k was created or removed. */
  function Uprooted(w: World, w': World, k: Key): nat {
    if Entry(w, k).Some? != Entry(w', k).Some? then 1 else 0
  }

  class Pass {
    const me: string
    var world: World
    var others: seq<seq<Step>>     // what the rest of the cluster does before each call
    var refusals: seq<nat>         // how many calls are served before each one that is refused
    ghost var origin: World
    ghost var trace: seq<Step>
    ghost var history: seq<World>  // the worlds that the trace went through, the origin first
    ghost var start: seq<Step>     // the trace up to the begin of the pass
    ghost var calm: nat            // from where on the trace holds nothing but calls of this pass

    // How often the rest of the cluster, before one call or another, wrote a source, or created or removed it.
    ghost var focus: Key
    ghost var rewrites: nat
    ghost var uprootings: nat

    /** A release that is about to be reconciled, with what will happen around it. */
    constructor (me: string, world: World, others: seq<seq<Step>>, refusals: seq<nat>)
      requires me in world.releases
      ensures Valid() && this.me == me && this.world == world && origin == world && trace == []
    {
      this.me, this.world, this.others, this.refusals := me, world, others, refusals;
      this.origin, this.trace, this.history := world, [], [world];
      this.start, this.calm := [], 0;
      this.focus, this.rewrites, this.uprootings := Key("", "", ""), 0, 0;
    }

    /** The world is where the transition system gets from the origin by the steps taken so far. */
    ghost predicate Valid()
      reads this
    {
      me in world.releases && Reached(origin, trace, history, world) && Marks()
    }

    ghost predicate Marks()
      reads this
    {
      && start <= trace && (forall i :: |start| <= i < |trace| ==> trace[i] != Begin(me))
      && calm <= |trace| && (forall i :: calm <= i < |trace| ==> trace[i] == Do(me))
    }

    function Mine(): Release
      requires me in world.releases
      reads this
    {
      world.releases[me]
    }

    /** No call is going to be refused. */
    ghost predicate Willing()
      reads this
    {
      refusals == []
    }

    /** The pass is left alone: no call is refused and nobody else does anything. */
    ghost predicate Quiet()
      reads this
    {
      others == [] && Willing()
    }

    // ----- The API server -----

    /** The rest of the cluster takes steps. */
    method Interfere()
      requires Valid()
      modifies this`world, this`trace, this`history, this`calm
      modifies this`others, this`rewrites, this`uprootings
      ensures Valid() && SamePass(old(Mine()), Mine())
      ensures rewrites == old(rewrites) + Rewritten(old(world), world, focus)
      ensures uprootings == old(uprootings) + Uprooted(old(world), world, focus)
      ensures old(others) == [] ==> others == [] && world == old(world) && trace == old(trace) && calm == old(calm)
      ensures old(others) != [] ==>
                && others == old(others)[1..]
                && ((forall i :: 0 <= i < |old(others)[0]| ==> old(others)[0][i] !in {Begin(me), Do(me), Abort(me)}) ==>
                      world == Run(old(world), old(others)[0]))
    {
      ghost var was := world;
      if others != [] {
        var batch := others[0];
        others := others[1..];
        for i := 0 to |batch|
          invariant Valid() && SamePass(old(Mine()), Mine())
          invariant rewrites == old(rewrites) && uprootings == old(uprootings) && others == old(others)[1..]
          invariant (forall j :: 0 <= j < |batch| ==> batch[j] !in {Begin(me), Do(me), Abort(me)}) ==>
                      world == Run(was, batch[..i])
        {
          RunOneMore(was, batch, i);
          if IsOthers(batch[i], me) {
            OthersKeepPass(world, batch[i], me);
            Take(batch[i]);
          }
        }
        assert batch[..|batch|] == batch;
      }
      rewrites := rewrites + Rewritten(was, world, focus);
      uprootings := uprootings + Uprooted(was, world, focus);
    }

    /** One step of the transition system. */
    method Take(s: Step)
      requires Valid() && s != Begin(me) && me in Apply(world, s).releases
      modifies this`world, this`trace, this`history, this`calm
      ensures Valid() && world == Apply(old(world), s) && trace == old(trace) + [s]
    {
      Reaches(origin, trace, history, world, s);
      world := Apply(world, s);
      trace, history := trace + [s], history + [world];
      calm := |trace|;
    }

    method Refusal() returns (refused: bool)
      modifies this`refusals
      ensures old(Willing()) ==> Willing() && !refused
      ensures refused <==> old(refusals) != [] && old(refusals)[0] == 0
      ensures old(refusals) != [] ==>
                refusals == if refused then old(refusals)[1..] else [old(refusals)[0] - 1] + old(refusals)[1..]
    {
      refused := refusals != [] && refusals[0] == 0;
      if refused {
        refusals := refusals[1..];
      } else if refusals != [] {
        refusals := [refusals[0] - 1] + refusals[1..];
      }
    }

    method Get(key: Key) returns (reply: GetReply)
      requires Valid()
      modifies this`world, this`trace, this`history, this`calm
      modifies this`others, this`refusals, this`rewrites, this`uprootings
      ensures Valid() && SamePass(old(Mine()), Mine())
      ensures reply.GetError? || reply == if key in world.store then Found(world.store[key]) else Missing
      ensures old(Willing()) ==> Willing() && !reply.GetError?
      ensures rewrites == old(rewrites) + Rewritten(old(world), world, focus)
      ensures uprootings == old(uprootings) + Uprooted(old(world), world, focus)
      ensures old(others) == [] ==> others == [] && world == old(world) && trace == old(trace) && calm == old(calm)
    {
      Interfere();
      var refused := Refusal();
      reply := if refused then GetError else if key in world.store then Found(world.store[key]) else Missing;
    }

    /** Update with the resource version read earlier. `before` is the world the call met. */
    method Update(key: Key, seen: Source, annotations: Annotations) returns (reply: WriteReply, ghost before: World)
      requires Valid()
      modifies this`world, this`trace, this`history, this`calm
      modifies this`others, this`refusals, this`rewrites, this`uprootings
      ensures Reached(origin, trace, history, before) && Marks()
      ensures me in before.releases && SamePass(old(Mine()), before.releases[me])
      ensures match reply
              case Written(source) =>
                && key in before.store && before.store[key].rv == seen.rv
                && world == Put(before, key, annotations) && source == world.store[key]
              case Conflict => world == before && key in before.store && before.store[key].rv != seen.rv
              case Refused => world == before
      ensures old(Willing()) ==> Willing()
      ensures old(Willing() && focus == key && Entry(world, key) == Some(seen)) ==>
                && (reply.Conflict? ==> rewrites > old(rewrites))
                && (reply.Refused? ==> uprootings > old(uprootings))
      ensures old(Quiet() && Entry(world, key) == Some(seen)) ==>
                Quiet() && reply.Written? && calm == old(calm)
    {
      Interfere();
      before := world;
      var refused := Refusal();
      if refused || key !in world.store {
        reply := Refused;
      } else if world.store[key].rv != seen.rv {
        reply := Conflict;
      } else {
        world := Put(world, key, annotations);
        reply := Written(world.store[key]);
      }
    }

    method CreateSource(key: Key, annotations: Annotations) returns (created: bool, ghost before: World)
      requires Valid()
      modifies this`world, this`trace, this`history, this`calm
      modifies this`others, this`refusals, this`rewrites, this`uprootings
      ensures Reached(origin, trace, history, before) && Marks()
      ensures me in before.releases && SamePass(old(Mine()), before.releases[me])
      ensures if created then key !in before.store && world == Create(before, key, annotations) else world == before
      ensures old(Willing()) ==> Willing()
      ensures old(Willing() && focus == key && key !in world.store) && !created ==> uprootings > old(uprootings)
      ensures old(Quiet() && key !in world.store) ==> Quiet() && created && calm == old(calm)
    {
      Interfere();
      before := world;
      var refused := Refusal();
      created := !refused && key !in world.store;
      if created {
        world := Create(world, key, annotations);
      }
    }

    /** Delete with resource version and UID preconditions; a source already gone is as good as deleted. */
    method DeleteSource(key: Key, latest: Source) returns (deleted: bool, ghost before: World)
      requires Valid()
      modifies this`world, this`trace, this`history, this`calm
      modifies this`others, this`refusals, this`rewrites, this`uprootings
      ensures Reached(origin, trace, history, before) && Marks()
      ensures me in before.releases && SamePass(old(Mine()), before.releases[me])
      ensures if deleted
              then (key in before.store ==> before.store[key].rv == latest.rv && before.store[key].uid == latest.uid)
                   && world == (if key in before.store then Remove(before, key) else before)
              else world == before
      ensures old(Willing()) ==> Willing()
      ensures old(Willing() && focus == key && Entry(world, key) == Some(latest)) ==>
                deleted || rewrites > old(rewrites)
      ensures old(Quiet() && Entry(world, key) == Some(latest)) ==>
                Quiet() && deleted && calm == old(calm)
    {
      Interfere();
      before := world;
      var refused := Refusal();
      deleted := !refused &&
                 (key in world.store ==> world.store[key].rv == latest.rv && world.store[key].uid == latest.uid);
      if deleted && key in world.store {
        world := Remove(world, key);
      }
    }

    /** The pass moves on after a call on a source: together they are one step of the transition system. */
    method Move(ghost before: World, next: Pc)
      requires Reached(origin, trace, history, before) && Marks() && IsCall(before, me, world, next)
      modifies this`world, this`trace, this`history
      ensures Valid() && world == SetPc(old(world), me, next) && trace == old(trace) + [Do(me)]
    {
      Reaches(origin, trace, history, before, Do(me));
      assert At(0);
      world := SetPc(world, me, next);
      trace, history := trace + [Do(me)], history + [world];
    }

    /** The same after a write to the release itself. */
    method MoveOwn(ghost before: World, next: Pc)
      requires Reached(origin, trace, history, before) && Marks()
      requires me in before.releases && StoreEffect(before, me) == before
      requires me in world.releases && world == SetRelease(before, me, world.releases[me])
      requires NextRelease(before, me) == world.releases[me].(pc := next)
      modifies this`world, this`trace, this`history
      ensures Valid() && trace == old(trace) + [Do(me)]
      ensures Mine() == old(world.releases[me]).(pc := next)
    {
      Reaches(origin, trace, history, before, Do(me));
      world := SetPc(world, me, next);
      trace, history := trace + [Do(me)], history + [world];
    }

    /** The pass ends early. */
    method GiveUp()
      requires Valid() && !Mine().pc.Idle?
      modifies this`world, this`trace, this`history, this`calm
      ensures Valid() && Mine() == old(Mine()).(pc := Idle(Failed))
    {
      Take(Abort(me));
    }

    // ----- ensureChartSourceRef -----

    method WithMe(releaseNames: seq<string>) returns (names: seq<string>)
      ensures names == AddName(releaseNames, me)
    {
      names := releaseNames;
      if me !in names {
        names := names + [me];
      }
    }

    /**
     The registering update of a source that was found. If no call is refused, it fails only if the source
     was removed since, and meets a conflict only if it was written since.
     */
    method Register(ref: Ref, source: Source) returns (verdict: Verdict)
      requires Valid() && Mine().pc == EnsureUpdate(ref, source)
      modifies this`world, this`trace, this`history, this`calm
      modifies this`others, this`refusals, this`rewrites, this`uprootings
      ensures Valid()
      ensures Mine().status == old(Mine().status) && Mine().finalizer == old(Mine().finalizer)
      ensures Mine().pc == match verdict
                           case Done => Ensured(ref)
                           case Again => EnsureGet(ref)
                           case Error => Idle(Failed)
      ensures old(Willing()) ==> Willing()
      ensures old(Willing() && focus == ref.ToKey() && Entry(world, focus) == Some(source)) ==>
                && (verdict == Again ==> rewrites > old(rewrites))
                && (verdict == Error ==> uprootings > old(uprootings))
      ensures old(Quiet() && Entry(world, ref.ToKey()) == Some(source)) ==>
                Quiet() && verdict == Done && calm == old(calm)
      ensures verdict == Done && ValidName(me) ==> Lists(world, ref.ToKey(), me)
      ensures verdict == Done ==>
                ref.ToKey() in world.store && SameOtherwise(source.annotations, world.store[ref.ToKey()].annotations)
    {
      var releaseNames := WithMe(Names(source.annotations));
      var reply, before := Update(ref.ToKey(), source, WithNames(source.annotations, releaseNames));
      if reply.Refused? {
        GiveUp();
        return Error;
      }
      RegisterEffect(before, me, ref, source, releaseNames);
      verdict := if reply.Written? then Done else Again;
      Move(before, if reply.Written? then Ensured(ref) else EnsureGet(ref));
    }

    /** The create of a source that was missing. If no call is refused, it fails only if the source has come since. */
    method CreateRegistered(ref: Ref) returns (ok: bool)
      requires Valid() && Mine().pc == EnsureCreate(ref)
      modifies this`world, this`trace, this`history, this`calm
      modifies this`others, this`refusals, this`rewrites, this`uprootings
      ensures Valid()
      ensures Mine().status == old(Mine().status) && Mine().finalizer == old(Mine().finalizer)
      ensures Mine().pc == if ok then Ensured(ref) else Idle(Failed)
      ensures old(Willing()) ==> Willing()
      ensures old(Willing() && focus == ref.ToKey() && Entry(world, focus) == None) && !ok ==>
                uprootings > old(uprootings)
      ensures old(Quiet() && Entry(world, ref.ToKey()) == None) ==> Quiet() && ok && calm == old(calm)
      ensures ok && ValidName(me) ==> Lists(world, ref.ToKey(), me)
    {
      var created, before := CreateSource(ref.ToKey(), Some(map[RELEASE_REFS := me]));
      CreateEffect(before, me, ref);
      if created {
        Move(before, Ensured(ref));
        if ValidName(me) {
          CreateRegistersOne(me);
        }
      } else {
        GiveUp();
      }
      ok := created;
    }

    /** The read that a registration starts with. */
    method LookUp(ref: Ref) returns (reply: GetReply)
      requires Valid() && Mine().pc == EnsureGet(ref)
      modifies this`world, this`trace, this`history, this`calm
      modifies this`others, this`refusals, this`rewrites, this`uprootings
      ensures Valid()
      ensures Mine().status == old(Mine().status) && Mine().finalizer == old(Mine().finalizer)
      ensures match reply
              case GetError => Mine().pc == Idle(Failed)
              case Missing => Mine().pc == EnsureCreate(ref) && Entry(world, ref.ToKey()) == None
              case Found(source) => Mine().pc == EnsureUpdate(ref, source) && Entry(world, ref.ToKey()) == Some(source)
      ensures rewrites >= old(rewrites) && uprootings >= old(uprootings)
      ensures old(Willing()) ==> Willing() && !reply.GetError?
      ensures old(Quiet()) ==> Quiet() && calm == old(calm)
    {
      reply := Get(ref.ToKey());
      if reply.GetError? {
        GiveUp();
        return;
      }
      EnsureGetEffect(world, me, ref);
      Move(world, if reply.Found? then EnsureUpdate(ref, reply.source) else EnsureCreate(ref));
    }

    /** The function that RetryOnConflict runs. */
    method EnsureOnce(ref: Ref) returns (verdict: Verdict)
      requires Valid() && Mine().pc == EnsureGet(ref) && focus == ref.ToKey()
      modifies this`world, this`trace, this`history, this`calm
      modifies this`others, this`refusals, this`rewrites, this`uprootings
      ensures Valid()
      ensures Mine().status == old(Mine().status) && Mine().finalizer == old(Mine().finalizer)
      ensures Mine().pc == match verdict
                           case Done => Ensured(ref)
                           case Again => EnsureGet(ref)
                           case Error => Idle(Failed)
      ensures old(Willing()) ==> Willing()
      ensures old(Willing()) && verdict == Again ==> rewrites > old(rewrites)
      ensures old(Willing()) && verdict == Error ==> uprootings > old(uprootings)
      ensures old(Quiet()) ==> Quiet() && verdict == Done && calm == old(calm)
      ensures verdict == Done && ValidName(me) ==> Lists(world, ref.ToKey(), me)
    {
      var reply := LookUp(ref);
      match reply {
        case GetError =>
          verdict := Error;
        case Missing =>
          var ok := CreateRegistered(ref);
          verdict := if ok then Done else Error;
        case Found(source) =>
          verdict := Register(ref, source);
      }
    }

    /**
     The release ends up listed in the source, or the pass failed. With no call refused it fails only if
     somebody created or removed the source meanwhile, or wrote it before as many calls as there are tries:
     fewer writes than that are ridden out. Left alone it succeeds.
     */
    method EnsureChartSourceRef(ref: Ref) returns (ok: bool)
      requires Valid() && Mine().pc == EnsureGet(ref)
      modifies this`world, this`trace, this`history, this`calm
      modifies this`others, this`refusals, this`rewrites, this`uprootings, this`focus
      ensures Valid()
      ensures Mine().status == old(Mine().status) && Mine().finalizer == old(Mine().finalizer)
      ensures Mine().pc == if ok then Ensured(ref) else Idle(Failed)
      ensures ok && ValidName(me) ==> Lists(world, ref.ToKey(), me)
      ensures focus == ref.ToKey()
      ensures old(Willing()) ==> Willing() && (ok || uprootings > 0 || rewrites >= MAX_TRIES)
      ensures old(Quiet()) ==> Quiet() && ok && calm == old(calm)
    {
      focus, rewrites, uprootings := ref.ToKey(), 0, 0;
      var tries := 0;
      while tries < MAX_TRIES
        invariant 0 <= tries <= MAX_TRIES
        invariant Valid() && Mine().pc == EnsureGet(ref)
        invariant Mine().status == old(Mine().status) && Mine().finalizer == old(Mine().finalizer)
        invariant focus == ref.ToKey() && (old(Willing()) ==> Willing() && rewrites >= tries)
        invariant old(Quiet()) ==> Quiet() && tries == 0 && calm == old(calm)
      {
        var verdict := EnsureOnce(ref);
        if verdict != Again {
          return verdict == Done;
        }
        tries := tries + 1;
      }
      GiveUp();
      return false;
    }

    // ----- cleanupChartSourceRef -----

    method WithoutMe(releaseNames: seq<string>) returns (left: seq<string>)
      requires me in releaseNames
      ensures left == RemoveName(releaseNames, me)
    {
      var index := IndexOf(releaseNames, me);
      left := releaseNames[..index] + releaseNames[index + 1..];
    }

    /** The unregistering update of a source that lists this release; it fails and meets conflicts as Register does. */
    method Unregister(ref: Ref, source: Source, after: After)
      returns (tried: Tried)
      requires Valid() && Mine().pc == CleanUpdate(ref, source, after) && me in Names(source.annotations)
      modifies this`world, this`trace, this`history, this`calm
      modifies this`others, this`refusals, this`rewrites, this`uprootings
      ensures Valid()
      ensures Mine().status == old(Mine().status) && Mine().finalizer == old(Mine().finalizer)
      ensures Mine().pc == PcAfter(tried, ref, after, old(Mine().status))
      ensures old(Willing()) ==> Willing()
      ensures old(Willing() && focus == ref.ToKey() && Entry(world, focus) == Some(source)) ==>
                && (tried.TryAgain? ==> rewrites > old(rewrites))
                && (tried.TryFailed? ==> uprootings > old(uprootings))
      ensures old(Quiet() && Entry(world, ref.ToKey()) == Some(source)) ==>
                Quiet() && tried.Unregistered? && calm == old(calm)
      ensures tried.Unregistered? ==>
                && Entry(world, ref.ToKey()) == Some(tried.source)
                && SameOtherwise(source.annotations, tried.source.annotations)
    {
      var left := WithoutMe(Names(source.annotations));
      var reply, before := Update(ref.ToKey(), source, WithNames(source.annotations, left));
      if reply.Refused? {
        GiveUp();
        return TryFailed;
      }
      UnregisterEffect(before, me, ref, source, after, left);
      tried := if reply.Written? then Unregistered(reply.source, left) else TryAgain;
      Move(before, PcAfter(tried, ref, after, world.releases[me].status));
    }

    /** The read that a cleanup starts with; a source that does not list this release is as good as missing. */
    method LookUpRegistered(ref: Ref, after: After) returns (reply: GetReply)
      requires Valid() && Mine().pc == CleanGet(ref, after)
      modifies this`world, this`trace, this`history, this`calm
      modifies this`others, this`refusals, this`rewrites, this`uprootings
      ensures Valid()
      ensures Mine().status == old(Mine().status) && Mine().finalizer == old(Mine().finalizer)
      ensures match reply
              case GetError => Mine().pc == Idle(Failed)
              case Missing => Mine().pc == Proceed(Mine().status, after) && !Lists(world, ref.ToKey(), me)
              case Found(source) =>
                && Mine().pc == CleanUpdate(ref, source, after) && Entry(world, ref.ToKey()) == Some(source)
                && me in Names(source.annotations)
      ensures rewrites >= old(rewrites) && uprootings >= old(uprootings)
      ensures old(Willing()) ==> Willing() && !reply.GetError?
      ensures old(Quiet()) ==> Quiet() && calm == old(calm)
    {
      reply := Get(ref.ToKey());
      if reply.GetError? {
        GiveUp();
        return;
      }
      if reply.Found? && me !in Names(reply.source.annotations) {
        reply := Missing;
      }
      CleanGetEffect(world, me, ref, after);
      Move(world, if reply.Found? then CleanUpdate(ref, reply.source, after)
                  else Proceed(world.releases[me].status, after));
    }

    /** The function that RetryOnConflict runs. */
    method CleanupOnce(ref: Ref, after: After) returns (tried: Tried)
      requires Valid() && Mine().pc == CleanGet(ref, after) && focus == ref.ToKey()
      modifies this`world, this`trace, this`history, this`calm
      modifies this`others, this`refusals, this`rewrites, this`uprootings
      ensures Valid()
      ensures Mine().status == old(Mine().status) && Mine().finalizer == old(Mine().finalizer)
      ensures Mine().pc == PcAfter(tried, ref, after, old(Mine().status))
      ensures old(Willing()) ==> Willing()
      ensures old(Willing()) && tried.TryAgain? ==> rewrites > old(rewrites)
      ensures old(Willing()) && tried.TryFailed? ==> uprootings > old(uprootings)
      ensures old(Quiet()) ==> Quiet() && !tried.TryAgain? && !tried.TryFailed? && calm == old(calm)
      ensures tried.Unregistered? ==> Entry(world, ref.ToKey()) == Some(tried.source)
    {
      var reply := LookUpRegistered(ref, after);
      match reply {
        case GetError =>
          tried := TryFailed;
        case Missing =>
          tried := NothingToDo;
        case Found(source) =>
          tried := Unregister(ref, source, after);
      }
    }

    /**
     The part of the cleanup that is retried on conflicts. With no call refused it fails only if somebody
     created or removed the source meanwhile, or wrote it before as many calls as there are tries.
     */
    method UnregisterWithRetries(ref: Ref, after: After) returns (tried: Tried)
      requires Valid() && Mine().pc == CleanGet(ref, after) && focus == ref.ToKey() && rewrites == uprootings == 0
      modifies this`world, this`trace, this`history, this`calm
      modifies this`others, this`refusals, this`rewrites, this`uprootings
      ensures Valid()
      ensures Mine().status == old(Mine().status) && Mine().finalizer == old(Mine().finalizer)
      ensures !tried.TryAgain? && Mine().pc == PcAfter(tried, ref, after, old(Mine().status))
      ensures old(Willing()) ==> Willing() && (tried.TryFailed? ==> uprootings > 0 || rewrites >= MAX_TRIES)
      ensures old(Quiet()) ==> Quiet() && !tried.TryFailed? && calm == old(calm)
      ensures tried.Unregistered? ==> Entry(world, ref.ToKey()) == Some(tried.source)
    {
      var tries := 0;
      while tries < MAX_TRIES
        invariant 0 <= tries <= MAX_TRIES
        invariant Valid() && Mine().pc == CleanGet(ref, after)
        invariant Mine().status == old(Mine().status) && Mine().finalizer == old(Mine().finalizer)
        invariant (old(Willing()) ==> Willing() && rewrites >= tries)
        invariant old(Quiet()) ==> Quiet() && tries == 0 && calm == old(calm)
      {
        tried := CleanupOnce(ref, after);
        if !tried.TryAgain? {
          return;
        }
        tries := tries + 1;
      }
      GiveUp();
      tried := TryFailed;
    }

    /**
     The precondition-guarded delete of a source whose last name was removed. It is not retried: with no
     call refused it fails only if somebody wrote the source since the update.
     */
    method DeleteUnused(ref: Ref, source: Source, after: After) returns (ok: bool)
      requires Valid() && Mine().pc == CleanDelete(ref, source.uid, source.rv, after)
      modifies this`world, this`trace, this`history, this`calm
      modifies this`others, this`refusals, this`rewrites, this`uprootings
      ensures Valid()
      ensures Mine().status == old(Mine().status) && Mine().finalizer == old(Mine().finalizer)
      ensures Mine().pc == if ok then Proceed(Mine().status, after) else Idle(Failed)
      ensures old(Willing()) ==> Willing()
      ensures old(Willing() && focus == ref.ToKey() && Entry(world, focus) == Some(source)) && !ok ==>
                rewrites > old(rewrites)
      ensures old(Quiet() && Entry(world, ref.ToKey()) == Some(source)) ==> Quiet() && ok && calm == old(calm)
    {
      var deleted, before := DeleteSource(ref.ToKey(), source);
      DeleteEffect(before, me, ref, source, after);
      if deleted {
        Move(before, Proceed(world.releases[me].status, after));
      } else {
        GiveUp();
      }
      ok := deleted;
    }

    /**
     The whole cleanup. With no call refused it fails only if somebody wrote the source meanwhile; left alone
     it succeeds.
     */
    method CleanupChartSourceRef(chartSourceRef: Option<Ref>, after: After) returns (ok: bool)
      requires Valid() && Mine().pc == Clean(Mine().status, chartSourceRef, after)
      modifies this`world, this`trace, this`history, this`calm
      modifies this`others, this`refusals, this`rewrites, this`uprootings, this`focus
      ensures Valid()
      ensures Mine().status == old(Mine().status) && Mine().finalizer == old(Mine().finalizer)
      ensures Mine().pc == if ok then Proceed(Mine().status, after) else Idle(Failed)
      ensures old(Willing()) ==> Willing() && (ok || uprootings > 0 || rewrites > 0)
      ensures old(Quiet()) ==> Quiet() && ok && calm == old(calm)
    {
      if chartSourceRef.None? {
        return true;
      }
      var ref := chartSourceRef.value;
      focus, rewrites, uprootings := ref.ToKey(), 0, 0;
      var tried := UnregisterWithRetries(ref, after);
      if tried.TryFailed? {
        return false;
      }
      if tried.Unregistered? && |tried.left| == 0 {
        ok := DeleteUnused(ref, tried.source, after);
      } else {
        ok := true;
      }
    }

    // ----- resolveChartRef and reconcileDelete -----

    /** A pass begins by reading its release. */
    method ReadRelease() returns (rel: Release)
      requires Valid() && Mine().pc.Idle?
      modifies this`world, this`trace, this`history, this`calm, this`start
      ensures Valid() && rel == old(Mine()) && Mine() == rel.(pc := FirstCall(rel))
      ensures start == trace == old(trace) + [Begin(me)] && calm == |trace|
    {
      rel := world.releases[me];
      Reaches(origin, trace, history, world, Begin(me));
      world := Apply(world, Begin(me));
      trace, history := trace + [Begin(me)], history + [world];
      start, calm := trace, |trace|;
    }

    /** Status().Update with the source fields as they are in memory. */
    method UpdateStatus(next: Status, onward: Pc) returns (ok: bool)
      requires Valid()
      requires match Mine().pc
               case Commit(due) => next == due && onward == (if due == CLEARED then DeleteHelmChart else Idle(Advanced))
               case Ensured(_) => next == Mine().status.(phase := Disconnecting) && onward == Idle(Advanced)
               case _ => false
      modifies this`world, this`trace, this`history, this`calm
      modifies this`others, this`refusals, this`rewrites, this`uprootings
      ensures Valid() && Mine().finalizer == old(Mine().finalizer)
      ensures Mine().status == (if ok then next else old(Mine().status))
      ensures Mine().pc == if ok then onward else Idle(Failed)
      ensures old(Willing()) ==> Willing() && ok
      ensures old(others) == [] ==> others == [] && (ok ==> calm == old(calm))
    {
      Interfere();
      ghost var before := world;
      var refused := Refusal();
      if refused {
        GiveUp();
      } else {
        world := SetRelease(world, me, world.releases[me].(status := next));
        MoveOwn(before, onward);
      }
      ok := !refused;
    }

    /** The HelmChart of this release is applied, or deleted. */
    method SetHelmChart(present: bool, onward: Pc) returns (ok: bool)
      requires Valid()
      requires match Mine().pc
               case ApplyHelmChart => present && onward == Idle(Resolved(OwnHelmChart))
               case DeleteHelmChart => !present && onward == Idle(Advanced)
               case _ => false
      modifies this`world, this`trace, this`history, this`calm
      modifies this`others, this`refusals, this`rewrites, this`uprootings
      ensures Valid()
      ensures Mine().finalizer == old(Mine().finalizer) && Mine().status == old(Mine().status)
      ensures Mine().pc == if ok then onward else Idle(Failed)
      ensures ok ==> Mine().helmChart == present
      ensures old(Willing()) ==> Willing() && ok
      ensures old(others) == [] ==> others == [] && (ok ==> calm == old(calm))
    {
      Interfere();
      ghost var before := world;
      var refused := Refusal();
      if refused {
        GiveUp();
      } else {
        world := SetRelease(world, me, world.releases[me].(helmChart := present));
        MoveOwn(before, onward);
      }
      ok := !refused;
    }

    /** The patch that adds or removes the finalizer. */
    method PatchFinalizer(present: bool) returns (ok: bool)
      requires Valid() && Mine().pc == (if present then AddFinalizer else DropFinalizer)
      modifies this`world, this`trace, this`history, this`calm
      modifies this`others, this`refusals, this`rewrites, this`uprootings
      ensures Valid() && Mine().status == old(Mine().status)
      ensures Mine().finalizer == (if ok then present else old(Mine().finalizer))
      ensures Mine().pc == if ok then Idle(Advanced) else Idle(Failed)
      ensures old(Willing()) ==> Willing() && ok
      ensures old(others) == [] ==> others == [] && (ok ==> calm == old(calm))
    {
      Interfere();
      ghost var before := world;
      var refused := Refusal();
      if refused {
        GiveUp();
      } else {
        world := SetRelease(world, me, world.releases[me].(finalizer := present));
        MoveOwn(before, Idle(Advanced));
      }
      ok := !refused;
    }

    /**
     The chart source phase machine, one pass of it. Whatever the rest of the cluster does, a pass
     over spec.chart makes one phase step or none; a pass over spec.chartRef clears the source
     fields, or resolves to the user's reference when there is nothing to clear.
     */
    method ResolveChartRef() returns (outcome: Outcome)
      requires Valid() && Mine().pc.Idle? && Mine().finalizer && !Mine().deleting
      modifies this`world, this`trace, this`history, this`calm
      modifies this`others, this`refusals, this`rewrites, this`uprootings, this`focus, this`start
      ensures Valid() && start == old(trace) + [Begin(me)]
      ensures Mine().pc == Idle(outcome) && Mine().finalizer
      ensures outcome != NotRun
      ensures old(Quiet()) ==>
                && Quiet() && calm == |start|
                && (outcome == Failed <==> old(Mine().spec).Unbuildable?)
      ensures match old(Mine().spec)
              case Inline(expected) =>
                var st := old(Mine().status);
                && Mine().status == (if outcome == Advanced then PhaseStep(st, expected) else st)
                && (outcome == Advanced ==> Distance(st, expected) > 0)
                && (outcome.Resolved? ==>
                      && Distance(st, expected) == 0
                      && (outcome.target == OciSource(expected.name) <==> expected.kind == "OCIRepository"))
              case Unbuildable => outcome == Failed && Mine().status == old(Mine().status)
              case UserRef(chartRef) =>
                if old(Mine().status).lastApplied.None? && old(Mine().status).candidate.None?
                then
                  var namespace := if chartRef.namespace == "" then old(Mine().namespace) else chartRef.namespace;
                  && outcome == Resolved(UserObject(ChartRef(chartRef.kind, chartRef.name, namespace)))
                  && Mine().status == old(Mine().status)
                else outcome == Failed || (outcome == Advanced && Mine().status == CLEARED && !Mine().helmChart)
    {
      var rel := ReadRelease();
      var st := rel.status;
      match rel.spec {
        case UserRef(chartRef) =>
          if st.lastApplied.Some? || st.candidate.Some? {
            outcome := Unwind(st);
          } else {
            var ref := chartRef;
            if ref.namespace == "" {
              ref := ref.(namespace := rel.namespace);
            }
            outcome := Resolved(UserObject(ref));
          }
        case Unbuildable =>
          outcome := Failed;
        case Inline(expected) =>
          outcome := Advance(st, expected);
      }
    }

    /** Cleanup on switching from spec.chart to spec.chartRef. */
    method Unwind(st: Status) returns (outcome: Outcome)
      requires Valid() && Mine().status == st && Mine().pc == Clean(st, st.lastApplied, ToCandidate)
      modifies this`world, this`trace, this`history, this`calm
      modifies this`others, this`refusals, this`rewrites, this`uprootings, this`focus
      ensures Valid() && Mine().pc == Idle(outcome)
      ensures Mine().finalizer == old(Mine().finalizer)
      ensures outcome == Failed || (outcome == Advanced && Mine().status == CLEARED && !Mine().helmChart)
      ensures old(Quiet()) ==> Quiet() && outcome != Failed && calm == old(calm)
    {
      outcome := Failed;
      var ok := CleanupChartSourceRef(st.lastApplied, ToCandidate);
      if !ok { return; }
      ok := CleanupChartSourceRef(st.candidate, ToCleared);
      if !ok { return; }
      var next := st.(lastApplied := None);
      next := next.(phase := Unset);
      next := next.(candidate := None);
      ok := UpdateStatus(next, DeleteHelmChart);
      if !ok { return; }
      ok := SetHelmChart(false, Idle(Advanced));
      if !ok { return; }
      outcome := Advanced;
    }

    /** The switch over the persisted phase, for spec.chart. */
    method Advance(st: Status, expected: Ref) returns (outcome: Outcome)
      requires Valid() && Mine().status == st
      requires Mine().pc == FirstCall(Mine().(pc := Idle(NotRun), spec := Inline(expected)))
      requires !Mine().deleting && Mine().finalizer
      modifies this`world, this`trace, this`history, this`calm
      modifies this`others, this`refusals, this`rewrites, this`uprootings, this`focus
      ensures Valid() && Mine().pc == Idle(outcome)
      ensures Mine().finalizer
      ensures Mine().status == if outcome == Advanced then PhaseStep(st, expected) else st
      ensures outcome != NotRun
      ensures outcome == Advanced ==> Distance(st, expected) > 0
      ensures old(Quiet()) ==> Quiet() && outcome != Failed && calm == old(calm)
      ensures outcome.Resolved? ==>
                && Distance(st, expected) == 0
                && (outcome.target == OciSource(expected.name) <==> expected.kind == "OCIRepository")
    {
      var ok, next := true, st;
      match st.phase {
        case Pending =>
          if st.candidate != Some(expected) {
            next := next.(candidate := Some(expected));
          } else {
            ok := EnsureChartSourceRef(expected);
            next := next.(phase := Disconnecting);
          }
        case Disconnecting =>
          if st.lastApplied.Some? && st.lastApplied != st.candidate {
            ok := CleanupChartSourceRef(st.lastApplied, ToReady);
          }
          next := next.(lastApplied := next.candidate);
          next := next.(phase := Ready);
        case _ =>
          if st.lastApplied == Some(expected) {
            outcome := EnsureHelmChart(expected);
            return;
          }
          next := next.(phase := Pending);
          next := next.(candidate := Some(expected));
      }
      if ok {
        ok := UpdateStatus(next, Idle(Advanced));
      }
      outcome := if ok then Advanced else Failed;
    }

    /** An OCI source is deployed from directly; for any other the HelmChart of the release is applied. */
    method EnsureHelmChart(expected: Ref) returns (outcome: Outcome)
      requires Valid()
      requires Mine().pc == if expected.kind == "OCIRepository" then Idle(Resolved(OciSource(expected.name)))
                            else ApplyHelmChart
      modifies this`world, this`trace, this`history, this`calm
      modifies this`others, this`refusals, this`rewrites, this`uprootings, this`focus
      ensures Valid() && Mine().pc == Idle(outcome)
      ensures Mine().status == old(Mine().status) && Mine().finalizer == old(Mine().finalizer)
      ensures match outcome
              case Resolved(target) =>
                if expected.kind == "OCIRepository" then target == OciSource(expected.name)
                else target == OwnHelmChart && Mine().helmChart
              case _ => outcome == Failed && expected.kind != "OCIRepository"
      ensures old(Quiet()) ==> Quiet() && outcome != Failed && calm == old(calm)
    {
      if expected.kind == "OCIRepository" {
        return Resolved(OciSource(expected.name));
      }
      var ok := SetHelmChart(true, Idle(Resolved(OwnHelmChart)));
      outcome := if ok then Resolved(OwnHelmChart) else Failed;
    }

    /** The part of reconcileDelete that follows a successful uninstall; the finalizer goes last. */
    method ReleaseSources(uninstalled: bool) returns (outcome: Outcome)
      requires Valid() && Mine().pc.Idle? && Mine().finalizer && Mine().deleting
      modifies this`world, this`trace, this`history, this`calm
      modifies this`others, this`refusals, this`rewrites, this`uprootings, this`focus, this`start
      ensures Valid() && start == old(trace) + [Begin(me)]
      ensures Mine().pc == Idle(outcome) && (outcome == Advanced || outcome == Failed)
      ensures Mine().finalizer <==> outcome == Failed
      ensures !uninstalled ==> outcome == Failed
      ensures old(Quiet()) && uninstalled ==> Quiet() && outcome != Failed && calm == |start|
    {
      var rel := ReadRelease();
      if !uninstalled {
        GiveUp();
        return Failed;
      }
      var ok := CleanupChartSourceRef(rel.status.lastApplied, ToFinalizer);
      if ok { ok := PatchFinalizer(false); }
      outcome := if ok then Advanced else Failed;
    }

    // ----- Reconcile, pass after pass -----

    /** The branches of one pass; `uninstalled` is how an uninstall turns out. */
    method Dispatch(uninstalled: bool) returns (outcome: Outcome)
      requires Valid() && Mine().pc.Idle?
      modifies this`world, this`trace, this`history, this`calm
      modifies this`others, this`refusals, this`rewrites, this`uprootings, this`focus, this`start
      ensures Valid() && start == old(trace) + [Begin(me)] && Mine().pc == Idle(outcome)
      ensures outcome != NotRun
      ensures old(Mine().deleting) ==> (Mine().finalizer <==> old(Mine().finalizer) && outcome == Failed)
      ensures !old(Mine().deleting) ==> (Mine().finalizer <==> old(Mine().finalizer) || outcome == Advanced)
      ensures !old(Mine().deleting) && outcome == Advanced ==>
                Todo(Mine().(spec := old(Mine().spec))) < Todo(old(Mine()))
      ensures outcome.Resolved? ==>
                !old(Mine().deleting) && Mine().status == old(Mine().status) && Todo(old(Mine())) == 0
      ensures old(Quiet()) && (old(Mine().deleting) ==> uninstalled) ==>
                Quiet() && calm == |start| && (outcome == Failed <==> FirstCall(old(Mine())) == Idle(Failed))
    {
      var rel := world.releases[me];
      if rel.deleting && rel.finalizer {
        outcome := ReleaseSources(uninstalled);
      } else if rel.deleting {
        var _ := ReadRelease();
        outcome := Advanced;
      } else if !rel.finalizer {
        var _ := ReadRelease();
        var ok := PatchFinalizer(true);
        outcome := if ok then Advanced else Failed;
      } else {
        outcome := ResolveChartRef();
      }
    }

    /**
     One pass, as far as it concerns chart sources; `uninstalled` is how an uninstall turns out. A pass that
     advances leaves less to do, whoever interferes. Left alone, it does not fail, and does to the whole
     cluster what a pass of the transition system left alone does.
     */
    method Reconcile(uninstalled: bool) returns (outcome: Outcome)
      requires Valid() && Mine().pc.Idle?
      modifies this`world, this`trace, this`history, this`calm
      modifies this`others, this`refusals, this`rewrites, this`uprootings, this`focus, this`start
      ensures Valid() && start == old(trace) + [Begin(me)] && Mine().pc == Idle(outcome)
      ensures outcome != NotRun
      ensures old(Mine().deleting) ==> (Mine().finalizer <==> old(Mine().finalizer) && outcome == Failed)
      ensures !old(Mine().deleting) ==> (Mine().finalizer <==> old(Mine().finalizer) || outcome == Advanced)
      ensures !old(Mine().deleting) && outcome == Advanced ==>
                Todo(Mine().(spec := old(Mine().spec))) < Todo(old(Mine()))
      ensures outcome.Resolved? ==>
                !old(Mine().deleting) && Mine().status == old(Mine().status) && Todo(old(Mine())) == 0
      ensures old(Quiet()) && (old(Mine().deleting) ==> uninstalled) ==>
                && Quiet() && OwnSteps(old(trace), trace, me) && world == Run(old(world), LonePass(me))
                && (outcome == Failed <==> FirstCall(old(Mine())) == Idle(Failed))
    {
      outcome := Dispatch(uninstalled);
      if old(Quiet()) && (old(Mine().deleting) ==> uninstalled) {
        ReachedIsRun(origin, old(trace), old(history), old(world));
        ReachedIsRun(origin, trace, history, world);
        UndisturbedIsLone(origin, old(trace), trace, me);
      }
    }

    /**
     The work queue: passes of this release one after the other, everybody else in between and during
     them, and then passes left alone for as long as a pass asks to be run again. Through all of it, as long
     as the surroundings left the annotation alone, spec.chart set and the release undeleted, the source the
     release relies on exists and lists it. In the end, after at most six passes left alone, the release is
     Ready on the source its spec names, which lists it; or, if it is being deleted, its finalizer is gone.
     */
    method Live(uninstalls: seq<bool>, ghost api: Api)
      returns (outcome: Outcome, passes: nat, ghost noise: seq<Step>)
      requires Valid() && trace == [] && Initial(world) && Created(api, Mine())
      modifies this
      ensures Valid() && origin == old(world) && noise <= trace && passes <= 6
      ensures Mine().deleting ==> !Mine().finalizer
      ensures InlineRun(api, origin, noise, me) ==> Backed(world, me) && Shape(api, Mine())
      ensures InlineRun(api, origin, noise, me) && Mine().spec.Inline? ==>
                && outcome.Resolved? && SettledOn(world, me, Mine().spec.source)
                && Lists(world, Mine().spec.source.ToKey(), me)
    {
      for i := 0 to |uninstalls|
        invariant Valid() && origin == old(world) && Mine().pc.Idle?
      {
        Interfere();
        var _ := Reconcile(uninstalls[i]);
      }
      noise := trace;
      others, refusals := [], [];
      outcome, passes := Settle();
      if InlineRun(api, origin, noise, me) {
        OwnStepsAreInline(api, origin, noise, trace, me);
        ReachedIsRun(origin, trace, history, world);
        HoldsRun(api, origin, trace, me);
      }
    }

    /** Passes left alone, for as long as one asks to be run again. */
    method Settle() returns (outcome: Outcome, passes: nat)
      requires Valid() && Quiet() && Mine().pc.Idle?
      modifies this`world, this`trace, this`history, this`calm
      modifies this`others, this`refusals, this`rewrites, this`uprootings, this`focus, this`start
      ensures Valid() && Mine().pc.Idle? && passes <= 6
      ensures OwnSteps(old(trace), trace, me)
      ensures Mine().spec == old(Mine().spec) && Mine().deleting == old(Mine().deleting)
      ensures Mine().deleting ==> !Mine().finalizer
      ensures !Mine().deleting ==>
                Mine().finalizer && Todo(Mine()) == 0 && (outcome.Resolved? <==> !Mine().spec.Unbuildable?)
    {
      TodoBounded(Mine());
      LonePassKeepsSpec(world, me);
      outcome := Reconcile(true);
      passes := 1;
      while outcome == Advanced && !world.releases[me].deleting
        invariant Valid() && Quiet() && Mine().pc == Idle(outcome)
        invariant OwnSteps(old(trace), trace, me)
        invariant Mine().spec == old(Mine().spec) && Mine().deleting == old(Mine().deleting)
        invariant Mine().deleting ==> !Mine().finalizer && passes == 1
        invariant !Mine().deleting && outcome == Advanced ==> passes + Todo(Mine()) <= 5
        invariant !Mine().deleting && outcome != Advanced ==>
                    && Mine().finalizer && Todo(Mine()) == 0 && passes <= 6
                    && (outcome.Resolved? <==> !Mine().spec.Unbuildable?)
        decreases Todo(Mine()), outcome == Advanced
      {
        ghost var before := trace;
        LonePassKeepsSpec(world, me);
        outcome := Reconcile(true);
        passes := passes + 1;
        OwnStepsFollow(old(trace), before, trace, me);
      }
    }
  }

  // ----- What each call comes to, said of what the code computes -----

  lemma EnsureGetEffect(w: World, me: string, ref: Ref)
    requires me in w.releases && w.releases[me].pc == EnsureGet(ref)
    ensures var k := ref.ToKey();
            IsCall(w, me, w, if k in w.store then EnsureUpdate(ref, w.store[k]) else EnsureCreate(ref))
  {
  }

  lemma CleanGetEffect(w: World, me: string, ref: Ref, after: After)
    requires me in w.releases && w.releases[me].pc == CleanGet(ref, after)
    ensures var k := ref.ToKey();
            IsCall(w, me, w, if k in w.store && me in Names(w.store[k].annotations)
                             then CleanUpdate(ref, w.store[k], after) else Proceed(w.releases[me].status, after))
  {
  }

  lemma CreateEffect(w: World, me: string, ref: Ref)
    requires me in w.releases && w.releases[me].pc == EnsureCreate(ref)
    ensures ref.ToKey() !in w.store ==>
              IsCall(w, me, Create(w, ref.ToKey(), Some(map[RELEASE_REFS := me])), Ensured(ref))
  {
  }

  lemma RegisterEffect(w: World, me: string, ref: Ref, source: Source, names: seq<string>)
    requires me in w.releases && w.releases[me].pc == EnsureUpdate(ref, source)
    requires names == AddName(Names(source.annotations), me) && ref.ToKey() in w.store
    ensures if w.store[ref.ToKey()].rv == source.rv
            then IsCall(w, me, Put(w, ref.ToKey(), WithNames(source.annotations, names)), Ensured(ref))
            else IsCall(w, me, w, EnsureGet(ref))
    ensures ValidName(me) ==> me in Names(WithNames(source.annotations, names))
    ensures SameOtherwise(source.annotations, WithNames(source.annotations, names))
  {
    if ValidName(me) {
      NameAfterRegister(source.annotations, me, me);
    }
  }

  lemma UnregisterEffect(w: World, me: string, ref: Ref, source: Source, after: After, left: seq<string>)
    requires me in w.releases && w.releases[me].pc == CleanUpdate(ref, source, after) && me in Names(source.annotations)
    requires left == RemoveName(Names(source.annotations), me) && ref.ToKey() in w.store
    ensures if w.store[ref.ToKey()].rv == source.rv then
              var w' := Put(w, ref.ToKey(), WithNames(source.annotations, left));
              IsCall(w, me, w', PcAfter(Unregistered(w'.store[ref.ToKey()], left), ref, after, w.releases[me].status))
            else IsCall(w, me, w, PcAfter(TryAgain, ref, after, w.releases[me].status))
    ensures SameOtherwise(source.annotations, WithNames(source.annotations, left))
  {
  }

  lemma DeleteEffect(w: World, me: string, ref: Ref, source: Source, after: After)
    requires me in w.releases && w.releases[me].pc == CleanDelete(ref, source.uid, source.rv, after)
    ensures var k := ref.ToKey();
            (k in w.store ==> w.store[k].rv == source.rv && w.store[k].uid == source.uid) ==>
              IsCall(w, me, if k in w.store then Remove(w, k) else w, Proceed(w.releases[me].status, after))
  {
  }

  /** Passes that a release asks to be run again for, until it is settled. */
  function Todo(rel: Release): nat {
    (if rel.finalizer then 0 else 1) +
    match rel.spec
    case Inline(expected) => Distance(rel.status, expected)
    case UserRef(_) => if rel.status.lastApplied.Some? || rel.status.candidate.Some? then 1 else 0
    case Unbuildable => 0
  }

  lemma TodoBounded(rel: Release)
    ensures Todo(rel) <= 5
  {
  }

  /** A trace of a pass left alone takes the world where such a pass takes it. */
  lemma UndisturbedIsLone(origin: World, before: seq<Step>, after: seq<Step>, me: string)
    requires before + [Begin(me)] <= after && forall i :: |before| < i < |after| ==> after[i] == Do(me)
    requires me in Run(origin, before).releases && Run(origin, before).releases[me].pc.Idle?
    requires me in Run(origin, after).releases && Run(origin, after).releases[me].pc.Idle?
    ensures Run(origin, after) == Run(Run(origin, before), LonePass(me)) && OwnSteps(before, after, me)
  {
    assert forall i :: 0 <= i < |before| ==> after[i] == (before + [Begin(me)])[i];
    var calls := after[|before| + 1..];
    AllCalls(calls, me);
    assert after == before + ([Begin(me)] + calls);
    RunConcat(origin, before, [Begin(me)] + calls);
    EndsAsLone(Run(origin, before), me, |calls|);
  }

  lemma EndsAsLone(w: World, q: string, n: nat)
    requires q in w.releases && w.releases[q].pc.Idle?
    requires var w' := Run(w, [Begin(q)] + Calls(q, n)); q in w'.releases && w'.releases[q].pc.Idle?
    ensures Run(w, [Begin(q)] + Calls(q, n)) == Run(w, LonePass(q))
  {
    var begun := Apply(w, Begin(q));
    RunCons(w, Begin(q), Calls(q, n));
    RunCons(w, Begin(q), Calls(q, 8));
    LonePassEnds(w, q);
    if n <= 8 {
      SplitCalls(begun, q, n, 8);
      IdleStays(Run(begun, Calls(q, n)), q, 8 - n);
    } else {
      SplitCalls(begun, q, 8, n);
      IdleStays(Run(begun, Calls(q, 8)), q, n - 8);
    }
  }

  lemma {:induction false} AllCalls(steps: seq<Step>, me: string)
    requires forall i :: 0 <= i < |steps| ==> steps[i] == Do(me)
    ensures steps == Calls(me, |steps|)
  {
    if steps != [] {
      AllCalls(steps[1..], me);
      assert steps == [steps[0]] + steps[1..];
    }
  }

  lemma {:induction false} CallsKeepSpec(w: World, q: string, n: nat)
    requires q in w.releases
    ensures q in Run(w, Calls(q, n)).releases
    ensures Run(w, Calls(q, n)).releases[q].spec == w.releases[q].spec
    ensures Run(w, Calls(q, n)).releases[q].deleting == w.releases[q].deleting
    decreases n
  {
    if n > 0 {
      RunCons(w, Do(q), Calls(q, n - 1));
      CallKeepsSpec(w, q);
      CallsKeepSpec(Apply(w, Do(q)), q, n - 1);
    }
  }

  lemma CallKeepsSpec(w: World, q: string)
    requires q in w.releases
    ensures NextRelease(w, q).spec == w.releases[q].spec && NextRelease(w, q).deleting == w.releases[q].deleting
  {
  }

  lemma LonePassKeepsSpec(w: World, q: string)
    requires q in w.releases && w.releases[q].pc.Idle?
    ensures q in Run(w, LonePass(q)).releases
    ensures Run(w, LonePass(q)).releases[q].spec == w.releases[q].spec
    ensures Run(w, LonePass(q)).releases[q].deleting == w.releases[q].deleting
  {
    RunCons(w, Begin(q), Calls(q, 8));
    CallsKeepSpec(Apply(w, Begin(q)), q, 8);
  }

  /** After the earlier trace there are only steps of the release itself. */
  ghost predicate OwnSteps(earlier: seq<Step>, later: seq<Step>, me: string) {
    earlier <= later && forall i :: |earlier| <= i < |later| ==> later[i] == Begin(me) || later[i] == Do(me)
  }

  lemma OwnStepsFollow(a: seq<Step>, b: seq<Step>, c: seq<Step>, me: string)
    requires OwnSteps(a, b, me) && OwnSteps(b, c, me)
    ensures OwnSteps(a, c, me)
  {
  }

  /** A pass of the release itself breaks none of the conditions on its surroundings. */
  lemma {:induction false} OwnStepsAreInline(api: Api, origin: World, noise: seq<Step>, trace: seq<Step>, me: string)
    requires OwnSteps(noise, trace, me) && InlineRun(api, origin, noise, me)
    ensures InlineRun(api, origin, trace, me)
    decreases trace
  {
    if trace != [] {
      if noise == [] {
        assert trace[0] == Begin(me) || trace[0] == Do(me);
        assert Benign(origin, trace[0]) && KeepsApi(api, trace[0], me) && StaysInline(trace[0], me);
        OwnStepsAreInline(api, Apply(origin, trace[0]), [], trace[1..], me);
      } else {
        assert noise[0] == trace[0];
        OwnStepsAreInline(api, Apply(origin, trace[0]), noise[1..], trace[1..], me);
      }
    }
  }
}
