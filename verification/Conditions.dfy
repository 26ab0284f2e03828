/** Status conditions: a list with at most one entry per type, kept by meta.SetStatusCondition. */
module Conditions {
  import opened Basics

  datatype Condition = Condition(kind: string, holds: bool, generation: int, reason: string)

  /** meta.SetStatusCondition: the entry of that type is replaced in place, or one is appended. */
  function SetCondition(conditions: seq<Condition>, c: Condition): seq<Condition> {
    if conditions == [] then [c]
    else if conditions[0].kind == c.kind then [c] + conditions[1..]
    else [conditions[0]] + SetCondition(conditions[1..], c)
  }

  /** The status of the first entry of a type, as conditions.IsTrue and its like look it up. */
  function Flag(conditions: seq<Condition>, kind: string): Option<bool> {
    if conditions == [] then None
    else if conditions[0].kind == kind then Some(conditions[0].holds)
    else Flag(conditions[1..], kind)
  }

  predicate IsTrue(conditions: seq<Condition>, kind: string) {
    Flag(conditions, kind) == Some(true)
  }

  ghost predicate OnePerKind(conditions: seq<Condition>) {
    forall i, j :: 0 <= i < j < |conditions| ==> conditions[i].kind != conditions[j].kind
  }

  /** Setting a condition changes what is looked up for its own type and for no other. */
  lemma {:induction false} FlagAfterSet(conditions: seq<Condition>, c: Condition, kind: string)
    ensures Flag(SetCondition(conditions, c), kind) == if kind == c.kind then Some(c.holds) else Flag(conditions, kind)
  {
    if conditions != [] {
      FlagAfterSet(conditions[1..], c, kind);
      assert ([conditions[0]] + SetCondition(conditions[1..], c))[1..] == SetCondition(conditions[1..], c);
      assert ([c] + conditions[1..])[1..] == conditions[1..];
    }
  }

  /** The first entry of a type. */
  function Find(conditions: seq<Condition>, kind: string): Option<Condition> {
    if conditions == [] then None
    else if conditions[0].kind == kind then Some(conditions[0])
    else Find(conditions[1..], kind)
  }

  /** Setting a condition stores it whole and leaves the entries of other types as they were. */
  lemma {:induction false} FoundAfterSet(conditions: seq<Condition>, c: Condition, kind: string)
    ensures Find(SetCondition(conditions, c), kind) == if kind == c.kind then Some(c) else Find(conditions, kind)
  {
    if conditions != [] {
      FoundAfterSet(conditions[1..], c, kind);
      assert ([conditions[0]] + SetCondition(conditions[1..], c))[1..] == SetCondition(conditions[1..], c);
      assert ([c] + conditions[1..])[1..] == conditions[1..];
    }
  }

  lemma FoundAfterThree(conditions: seq<Condition>, a: Condition, b: Condition, c: Condition)
    requires a.kind != b.kind && a.kind != c.kind && b.kind != c.kind
    ensures var after := SetThree(conditions, a, b, c);
            Find(after, a.kind) == Some(a) && Find(after, b.kind) == Some(b) && Find(after, c.kind) == Some(c)
  {
    var one := SetCondition(conditions, a);
    var two := SetCondition(one, b);
    FoundAfterSet(conditions, a, a.kind);
    FoundAfterSet(one, b, a.kind);
    FoundAfterSet(one, b, b.kind);
    FoundAfterSet(two, c, a.kind);
    FoundAfterSet(two, c, b.kind);
    FoundAfterSet(two, c, c.kind);
  }

  lemma {:induction false} KindsAfterSet(conditions: seq<Condition>, c: Condition, kind: string)
    ensures (exists e :: e in SetCondition(conditions, c) && e.kind == kind) <==>
            kind == c.kind || exists e :: e in conditions && e.kind == kind
  {
    if conditions != [] {
      KindsAfterSet(conditions[1..], c, kind);
      var first, rest := conditions[0], conditions[1..];
      assert conditions == [first] + rest;
      if first.kind == c.kind {
        assert c in [c] + rest;
        assert first in conditions;
        if e :| e in [c] + rest && e.kind == kind {
          assert e == c || e in conditions;
        }
        if e :| e in conditions && e.kind == kind {
          assert e == first || e in [c] + rest;
        }
      } else {
        var after := SetCondition(rest, c);
        assert forall e :: e in [first] + after <==> e == first || e in after;
        assert forall e :: e in conditions <==> e == first || e in rest;
      }
    } else {
      assert c in [c];
    }
  }

  lemma {:induction false} OnePerKindAfterSet(conditions: seq<Condition>, c: Condition)
    requires OnePerKind(conditions)
    ensures OnePerKind(SetCondition(conditions, c))
  {
    if conditions != [] && conditions[0].kind != c.kind {
      var first, rest := conditions[0], conditions[1..];
      OnePerKindAfterSet(rest, c);
      KindsAfterSet(rest, c, first.kind);
      var after := SetCondition(rest, c);
      assert forall e :: e in rest ==> e.kind != first.kind;
      forall i, j | 0 <= i < j < |[first] + after| ensures ([first] + after)[i].kind != ([first] + after)[j].kind {
        assert ([first] + after)[j] in after;
      }
    }
  }

  /** The conditions after three of them were set in turn. */
  function SetThree(conditions: seq<Condition>, a: Condition, b: Condition, c: Condition): seq<Condition> {
    SetCondition(SetCondition(SetCondition(conditions, a), b), c)
  }

  lemma AfterSetThree(conditions: seq<Condition>, a: Condition, b: Condition, c: Condition, kind: string)
    requires a.kind != b.kind && a.kind != c.kind && b.kind != c.kind
    ensures Flag(SetThree(conditions, a, b, c), kind) ==
            if kind == a.kind then Some(a.holds) else if kind == b.kind then Some(b.holds)
            else if kind == c.kind then Some(c.holds) else Flag(conditions, kind)
    ensures OnePerKind(conditions) ==> OnePerKind(SetThree(conditions, a, b, c))
  {
    var one := SetCondition(conditions, a);
    var two := SetCondition(one, b);
    FlagAfterSet(conditions, a, kind);
    FlagAfterSet(one, b, kind);
    FlagAfterSet(two, c, kind);
    if OnePerKind(conditions) {
      OnePerKindAfterSet(conditions, a);
      OnePerKindAfterSet(one, b);
      OnePerKindAfterSet(two, c);
    }
  }

  const READY := "Ready"
  const RECONCILING := "Reconciling"
  const STALLED := "Stalled"

  /** How many of the three conditions are true. */
  function TrueCount(conditions: seq<Condition>): nat {
    (if IsTrue(conditions, READY) then 1 else 0)
    + (if IsTrue(conditions, RECONCILING) then 1 else 0)
    + (if IsTrue(conditions, STALLED) then 1 else 0)
  }
}
