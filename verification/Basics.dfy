/** Shared vocabulary. */
module Basics {

  datatype Option<+T> = None | Some(value: T)

  datatype ObjectKey = ObjectKey(namespace: string, name: string)

  /** client.ObjectKey.String() */
  function KeyText(k: ObjectKey): string {
    k.namespace + "/" + k.name
  }

  /** No two positions hold the same element. */
  ghost predicate NoDuplicates<T>(s: seq<T>) {
    forall i, j :: 0 <= i < j < |s| ==> s[i] != s[j]
  }

  /** Position of the first occurrence of x, as slices.Index gives it for an element that is there. */
  function IndexOf<T(==)>(s: seq<T>, x: T): (i: nat)
    requires x in s
    ensures i < |s| && s[i] == x
    ensures forall j :: 0 <= j < i ==> s[j] != x
  {
    var front := s[..|s| - 1];
    if x in front then IndexOf(front, x) else |s| - 1
  }
}
