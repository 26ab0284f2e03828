/**
 The release-refs annotation of a chart source: the names of the releases that use
 the source, joined with commas. Splitting follows Go's strings.Split, so the empty
 text holds one empty name and not zero names.
 */
module RefNames {
  import opened Basics

  /** The annotations of an object; None when the object carries no annotation map. */
  type Annotations = Option<map<string, string>>

  const RELEASE_REFS := "nelm.werf.io/release-refs"

  /** A release name, as the API server admits it: not empty and without a comma. */
  predicate ValidName(name: string) {
    name != "" && ',' !in name
  }

  /** strings.Split(s, ",") */
  function Split(s: string): (names: seq<string>)
    ensures |names| >= 1
    ensures forall n :: n in names ==> ',' !in n
  {
    if s == "" then [""]
    else
      var rest := Split(s[1..]);
      if s[0] == ',' then [""] + rest
      else
        assert forall n :: n in [[s[0]] + rest[0]] + rest[1..] ==> ',' !in n by {
          assert ',' !in rest[0];
        }
        [[s[0]] + rest[0]] + rest[1..]
  }

  /** strings.Join(names, ",") */
  function Join(names: seq<string>): string {
    if |names| == 0 then ""
    else if |names| == 1 then names[0]
    else names[0] + "," + Join(names[1..])
  }

  /** Joining undoes splitting, on every text. */
  lemma {:induction false} JoinUndoesSplit(s: string)
    ensures Join(Split(s)) == s
  {
    if s != "" {
      JoinUndoesSplit(s[1..]);
      var rest := Split(s[1..]);
      if s[0] == ',' {
        assert ([""] + rest)[1..] == rest;
      } else if |rest| > 1 {
        assert ([[s[0]] + rest[0]] + rest[1..])[1..] == rest[1..];
      }
    }
  }

  /** Splitting undoes joining, on every non-empty list of comma-free names. */
  lemma {:induction false} SplitUndoesJoin(names: seq<string>)
    requires |names| >= 1 && forall n :: n in names ==> ',' !in n
    ensures Split(Join(names)) == names
  {
    if |names| == 1 {
      SplitWord(names[0]);
    } else {
      SplitUndoesJoin(names[1..]);
      SplitFirst(names[0], Join(names[1..]));
      assert names == [names[0]] + names[1..];
    }
  }

  lemma {:induction false} SplitWord(word: string)
    requires ',' !in word
    ensures Split(word) == [word]
  {
    if word != "" {
      SplitWord(word[1..]);
      assert [word[0]] + word[1..] == word;
    }
  }

  lemma {:induction false} SplitFirst(word: string, tail: string)
    requires ',' !in word
    ensures Split(word + "," + tail) == [word] + Split(tail)
  {
    var text := word + "," + tail;
    if word == "" {
      assert text[1..] == tail;
    } else {
      SplitFirst(word[1..], tail);
      assert text[1..] == word[1..] + "," + tail;
      assert [word[0]] + word[1..] == word;
    }
  }

  // ----- The annotation as a list of names -----

  /** getChartSourceReleaseRefNamesSlice. */
  function Names(annotations: Annotations): (names: seq<string>)
    ensures forall n :: n in names ==> ',' !in n
  {
    match annotations
    case None => []
    case Some(m) => Split(if RELEASE_REFS in m then m[RELEASE_REFS] else "")
  }

  /**
   No names only without an annotation map; an annotation that is absent, or was emptied, holds one
   empty name, and no other text does.
   */
  lemma NoNameIsNotAnEmptyName(annotations: Annotations)
    ensures Names(annotations) == [] <==> annotations.None?
    ensures annotations.Some? ==>
              var m := annotations.value;
              Names(annotations) == [""] <==> RELEASE_REFS !in m || m[RELEASE_REFS] == ""
  {
    if annotations.Some? && RELEASE_REFS in annotations.value {
      JoinUndoesSplit(annotations.value[RELEASE_REFS]);
    }
  }

  /** The annotations after the names were written back. */
  function WithNames(annotations: Annotations, names: seq<string>): Annotations {
    var m := if annotations.None? then map[] else annotations.value;
    Some(m[RELEASE_REFS := Join(names)])
  }

  /** The value of one annotation. */
  function AnnotationAt(annotations: Annotations, key: string): Option<string> {
    if annotations.Some? && key in annotations.value then Some(annotations.value[key]) else None
  }

  /** Two sets of annotations that differ in nothing but the release-refs annotation. */
  ghost predicate SameOtherwise(a: Annotations, b: Annotations) {
    forall key :: key != RELEASE_REFS ==> AnnotationAt(a, key) == AnnotationAt(b, key)
  }

  function AddName(names: seq<string>, name: string): seq<string> {
    if name in names then names else names + [name]
  }

  function RemoveName(names: seq<string>, name: string): seq<string>
    requires name in names
  {
    var i := IndexOf(names, name);
    names[..i] + names[i + 1..]
  }

  // ----- What the annotation stands for: a finite set of releases -----

  /** The releases registered by the annotation. */
  function Registered(annotations: Annotations): set<string> {
    set n | n in Names(annotations) && n != ""
  }

  /** Annotations the operator's own writes keep to: no name twice. */
  ghost predicate Proper(annotations: Annotations) {
    NoDuplicates(Names(annotations))
  }

  lemma NamesAfterWrite(annotations: Annotations, names: seq<string>)
    requires forall n :: n in names ==> ',' !in n
    ensures Names(WithNames(annotations, names)) == if names == [] then [""] else names
  {
    if names != [] {
      SplitUndoesJoin(names);
    }
  }

  /** Registering adds one element to the set and keeps the list free of duplicates. */
  lemma RegisterRefinesInsert(annotations: Annotations, name: string)
    requires ValidName(name)
    ensures var after := WithNames(annotations, AddName(Names(annotations), name));
            && Names(after) == (if name in Names(annotations) then Names(annotations) else Names(annotations) + [name])
            && Registered(after) == Registered(annotations) + {name}
            && (Proper(annotations) ==> Proper(after))
            && SameOtherwise(annotations, after)
  {
    NamesAfterWrite(annotations, AddName(Names(annotations), name));
  }

  /** Creating a source registers exactly its creator. */
  lemma CreateRegistersOne(name: string)
    requires ValidName(name)
    ensures Names(Some(map[RELEASE_REFS := name])) == [name]
    ensures Registered(Some(map[RELEASE_REFS := name])) == {name}
  {
    SplitWord(name);
  }

  lemma RemovedNames(names: seq<string>, name: string)
    requires name in names && NoDuplicates(names)
    ensures var left := RemoveName(names, name);
            && NoDuplicates(left)
            && forall n :: n in left <==> n in names && n != name
  {
    var i := IndexOf(names, name);
    var left := RemoveName(names, name);
    forall n ensures n in left <==> n in names && n != name {
      if n in names && n != name {
        var j :| 0 <= j < |names| && names[j] == n;
        assert left[if j < i then j else j - 1] == n;
      }
    }
  }

  /**
   Unregistering removes one element from the set and keeps the list free of duplicates.
   The gate for deleting the source, an empty list of names left, opens exactly when the set
   became empty and the list held no empty entry.
   */
  lemma UnregisterRefinesRemove(annotations: Annotations, name: string)
    requires ValidName(name) && name in Names(annotations) && Proper(annotations)
    ensures var left := RemoveName(Names(annotations), name);
            var after := WithNames(annotations, left);
            && (exists i :: 0 <= i < |Names(annotations)| && Names(annotations)[i] == name
                            && left == Names(annotations)[..i] + Names(annotations)[i + 1..])
            && Names(after) == (if left == [] then [""] else left)
            && Registered(after) == Registered(annotations) - {name}
            && Proper(after) && SameOtherwise(annotations, after)
            && (left == [] <==> Registered(annotations) == {name} && "" !in Names(annotations))
  {
    var names := Names(annotations);
    var left := RemoveName(names, name);
    RemovedNames(names, name);
    assert forall n :: n in left ==> ',' !in n;
    NamesAfterWrite(annotations, left);
    var after := WithNames(annotations, left);
    assert forall n :: n != "" ==> (n in Names(after) <==> n in left);
    if left == [] {
      assert forall n :: n in names ==> n == name;
    } else {
      assert left[0] in names && left[0] != name;
      assert left[0] != "" ==> left[0] in Registered(annotations);
    }
  }

  /** The two writes, one name at a time. */
  lemma NameAfterRegister(annotations: Annotations, name: string, q: string)
    requires ValidName(name)
    ensures var after := WithNames(annotations, AddName(Names(annotations), name));
            q in Names(after) <==> q in Names(annotations) || q == name
  {
    RegisterRefinesInsert(annotations, name);
  }

  lemma NameAfterUnregister(annotations: Annotations, name: string, q: string)
    requires ValidName(name) && name in Names(annotations) && Proper(annotations) && q != ""
    ensures var after := WithNames(annotations, RemoveName(Names(annotations), name));
            q in Names(after) <==> q in Names(annotations) && q != name
  {
    UnregisterRefinesRemove(annotations, name);
    RemovedNames(Names(annotations), name);
  }
}
