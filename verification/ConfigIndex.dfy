/** The index that wakes a release when a ConfigMap or Secret it reads changes. */
module ConfigIndex {
  import opened Basics
  import opened Values

  // ----- configDependencyIndexerFunc -----

  /** The spec refers to an object of this kind and name. */
  predicate RefersTo(spec: Spec, kind: string, name: string) {
    || (spec.secretKeyFrom.Some? && spec.secretKeyFrom.value.kind == kind && spec.secretKeyFrom.value.name == name)
    || (spec.keyringFrom.Some? && spec.keyringFrom.value.kind == kind && spec.keyringFrom.value.name == name)
    || (exists r :: r in spec.valuesFrom && r.kind == kind && r.name == name)
    || (exists r :: r in spec.secretValuesFrom && r.kind == kind && r.name == name)
  }

  ghost predicate Indexed(spec: Spec, kind: string, namespace: string, key: string) {
    exists name :: RefersTo(spec, kind, name) && key == KeyText(ObjectKey(namespace, name))
  }

  method ReferenceKeys(kind: string, namespace: string, refs: seq<ValuesReference>) returns (keys: seq<string>)
    ensures forall key :: key in keys <==>
              exists r :: r in refs && r.kind == kind && key == KeyText(ObjectKey(namespace, r.name))
  {
    keys := [];
    for i := 0 to |refs|
      invariant forall key :: key in keys <==>
                  exists r :: r in refs[..i] && r.kind == kind && key == KeyText(ObjectKey(namespace, r.name))
    {
      assert refs[..i + 1] == refs[..i] + [refs[i]];
      if refs[i].kind == kind {
        keys := keys + [KeyText(ObjectKey(namespace, refs[i].name))];
      }
    }
    assert refs[..|refs|] == refs;
  }

  /** The keys of exactly the objects of the kind that the spec refers to. */
  method ConfigDependencyKeys(kind: string, namespace: string, spec: Spec) returns (keys: seq<string>)
    ensures forall key :: key in keys <==> Indexed(spec, kind, namespace, key)
  {
    var single := [];
    if spec.secretKeyFrom.Some? && spec.secretKeyFrom.value.kind == kind {
      single := single + [KeyText(ObjectKey(namespace, spec.secretKeyFrom.value.name))];
    }
    if spec.keyringFrom.Some? && spec.keyringFrom.value.kind == kind {
      single := single + [KeyText(ObjectKey(namespace, spec.keyringFrom.value.name))];
    }
    var values := ReferenceKeys(kind, namespace, spec.valuesFrom);
    var secretValues := ReferenceKeys(kind, namespace, spec.secretValuesFrom);
    keys := single + values + secretValues;
    forall key ensures key in keys <==> Indexed(spec, kind, namespace, key) {
      if key in keys {
        if key in values {
          var r :| r in spec.valuesFrom && r.kind == kind && key == KeyText(ObjectKey(namespace, r.name));
          assert RefersTo(spec, kind, r.name);
        } else if key in secretValues {
          var r :| r in spec.secretValuesFrom && r.kind == kind && key == KeyText(ObjectKey(namespace, r.name));
          assert RefersTo(spec, kind, r.name);
        } else {
          assert key in single;
        }
      }
    }
  }

  // ----- Values depend only on indexed objects -----

  ghost predicate SameEntry(a: DataMap, b: DataMap, k: ObjectKey) {
    (k in a <==> k in b) && (k in a ==> a[k] == b[k])
  }

  /** The two cluster states agree on every object whose key the index lists for the release. */
  ghost predicate AgreeOnIndexed(a: Objects, b: Objects, namespace: string, spec: Spec) {
    forall k :: (Indexed(spec, CONFIG_MAP, namespace, KeyText(k)) ==> SameEntry(a.configMaps, b.configMaps, k))
                && (Indexed(spec, SECRET, namespace, KeyText(k)) ==> SameEntry(a.secrets, b.secrets, k))
  }

  lemma SameFetch(a: Objects, b: Objects, namespace: string, spec: Spec, ref: ValuesReference)
    requires AgreeOnIndexed(a, b, namespace, spec)
    requires ref in spec.valuesFrom || ref in spec.secretValuesFrom
    ensures FetchReference(a, namespace, ref) == FetchReference(b, namespace, ref)
  {
    assert RefersTo(spec, ref.kind, ref.name);
    var k := ObjectKey(namespace, ref.name);
    assert Indexed(spec, ref.kind, namespace, KeyText(k));
  }

  lemma SameKey(a: Objects, b: Objects, namespace: string, spec: Spec, ref: KeyReference)
    requires AgreeOnIndexed(a, b, namespace, spec) && ref.kind == SECRET
    requires spec.secretKeyFrom == Some(ref) || spec.keyringFrom == Some(ref)
    ensures FetchKey(a, namespace, ref) == FetchKey(b, namespace, ref)
  {
    assert RefersTo(spec, SECRET, ref.name);
    var k := ObjectKey(namespace, ref.name);
    assert Indexed(spec, SECRET, namespace, KeyText(k));
  }

  lemma {:induction false} SameReadable(a: Objects, b: Objects, namespace: string, refs: seq<ValuesReference>)
    requires forall r :: r in refs ==> FetchReference(a, namespace, r) == FetchReference(b, namespace, r)
    ensures Readable(a, namespace, refs) == Readable(b, namespace, refs)
    ensures AllRead(a, namespace, refs) <==> AllRead(b, namespace, refs)
    ensures !AllRead(a, namespace, refs) ==> FirstBroken(a, namespace, refs) == FirstBroken(b, namespace, refs)
  {
    if refs != [] {
      assert refs[0] in refs;
      SameReadable(a, b, namespace, refs[1..]);
    }
    if !AllRead(a, namespace, refs) {
      var i := FirstBroken(a, namespace, refs);
      assert forall j :: 0 <= j < |refs| ==> refs[j] in refs;
      FirstBrokenIs(b, namespace, refs, i);
    }
  }

  /**
   Values resolution depends only on indexed objects: for every valid spec, two cluster states that
   agree on the ConfigMaps and Secrets the index lists give the same outcome, contents and failures
   alike.
   */
  lemma ResolutionDependsOnlyOnIndexed(a: Objects, b: Objects, namespace: string, spec: Spec, chartFiles: seq<string>)
    requires ValidSpec(spec) && AgreeOnIndexed(a, b, namespace, spec)
    ensures Expected(a, namespace, spec, chartFiles) == Expected(b, namespace, spec, chartFiles)
  {
    forall r | r in spec.valuesFrom || r in spec.secretValuesFrom
      ensures FetchReference(a, namespace, r) == FetchReference(b, namespace, r)
    {
      SameFetch(a, b, namespace, spec, r);
    }
    SameReadable(a, b, namespace, spec.valuesFrom);
    SameReadable(a, b, namespace, spec.secretValuesFrom);
    if spec.secretKeyFrom.Some? { SameKey(a, b, namespace, spec, spec.secretKeyFrom.value); }
    if spec.keyringFrom.Some? { SameKey(a, b, namespace, spec, spec.keyringFrom.value); }
  }

  // ----- The index lists nothing else -----

  function Without(c: Objects, kind: string, k: ObjectKey): Objects {
    if kind == CONFIG_MAP then c.(configMaps := c.configMaps - {k})
    else if kind == SECRET then c.(secrets := c.secrets - {k})
    else c
  }

  /** Every name and every data key the spec can look up. */
  function AllNames(spec: Spec): set<string> {
    (set r | r in spec.valuesFrom :: r.name) + (set r | r in spec.secretValuesFrom :: r.name)
    + (if spec.secretKeyFrom.Some? then {spec.secretKeyFrom.value.name} else {})
    + (if spec.keyringFrom.Some? then {spec.keyringFrom.value.name} else {})
  }

  function AllDataKeys(spec: Spec): set<string> {
    (set r | r in spec.valuesFrom :: DefaultedKey(r.dataKey, "values.yaml"))
    + (set r | r in spec.secretValuesFrom :: DefaultedKey(r.dataKey, "values.yaml"))
    + (if spec.secretKeyFrom.Some? then {DefaultedKey(spec.secretKeyFrom.value.dataKey, "key")} else {})
    + (if spec.keyringFrom.Some? then {DefaultedKey(spec.keyringFrom.value.dataKey, "key")} else {})
  }

  /** A cluster in which all that the spec refers to can be read. */
  function Complete(namespace: string, spec: Spec): Objects {
    var data := map d | d in AllDataKeys(spec) :: "";
    var keys := set n | n in AllNames(spec) :: ObjectKey(namespace, n);
    var objects := map k | k in keys :: data;
    Objects(objects, objects)
  }

  lemma CompleteReads(namespace: string, spec: Spec, r: ValuesReference)
    requires ValidSpec(spec) && (r in spec.valuesFrom || r in spec.secretValuesFrom)
    ensures FetchReference(Complete(namespace, spec), namespace, r).Some?
  {
    assert r.name in AllNames(spec) && DefaultedKey(r.dataKey, "values.yaml") in AllDataKeys(spec);
    assert ObjectKey(namespace, r.name) in Complete(namespace, spec).configMaps;
  }

  lemma CompleteReadsKey(namespace: string, spec: Spec, r: KeyReference)
    requires spec.secretKeyFrom == Some(r) || spec.keyringFrom == Some(r)
    ensures FetchKey(Complete(namespace, spec), namespace, r).Some?
  {
    assert r.name in AllNames(spec) && DefaultedKey(r.dataKey, "key") in AllDataKeys(spec);
    assert ObjectKey(namespace, r.name) in Complete(namespace, spec).secrets;
  }

  lemma {:induction false} ReadableCounts(c: Objects, namespace: string, refs: seq<ValuesReference>)
    ensures |Readable(c, namespace, refs)| <= |refs|
    ensures |Readable(c, namespace, refs)| == |refs| <==>
            forall r :: r in refs ==> FetchReference(c, namespace, r).Some?
  {
    if refs != [] {
      ReadableCounts(c, namespace, refs[1..]);
      assert refs == [refs[0]] + refs[1..];
    }
  }

  lemma CompleteResolves(namespace: string, spec: Spec)
    requires ValidSpec(spec)
    ensures var c := Complete(namespace, spec);
            && Resolvable(c, namespace, spec)
            && |Readable(c, namespace, spec.valuesFrom)| == |spec.valuesFrom|
            && |Readable(c, namespace, spec.secretValuesFrom)| == |spec.secretValuesFrom|
  {
    var c := Complete(namespace, spec);
    forall r | r in spec.valuesFrom || r in spec.secretValuesFrom ensures FetchReference(c, namespace, r).Some? {
      CompleteReads(namespace, spec, r);
    }
    if spec.secretKeyFrom.Some? { CompleteReadsKey(namespace, spec, spec.secretKeyFrom.value); }
    if spec.keyringFrom.Some? { CompleteReadsKey(namespace, spec, spec.keyringFrom.value); }
    ReadableCounts(c, namespace, spec.valuesFrom);
    ReadableCounts(c, namespace, spec.secretValuesFrom);
  }

  lemma KeyOfRemovedObject(c: Objects, namespace: string, ref: KeyReference)
    ensures FetchKey(Without(c, SECRET, ObjectKey(namespace, ref.name)), namespace, ref).None?
  {
  }

  /** If a referenced object is gone and resolution still succeeds, some optional reference was skipped. */
  lemma SkippedReference(c: Objects, namespace: string, spec: Spec, kind: string, name: string)
    requires ValidSpec(spec) && RefersTo(spec, kind, name)
    requires Resolvable(Without(c, kind, ObjectKey(namespace, name)), namespace, spec)
    ensures var less := Without(c, kind, ObjectKey(namespace, name));
            || |Readable(less, namespace, spec.valuesFrom)| < |spec.valuesFrom|
            || |Readable(less, namespace, spec.secretValuesFrom)| < |spec.secretValuesFrom|
  {
    var less := Without(c, kind, ObjectKey(namespace, name));
    if spec.secretKeyFrom.Some? { KeyOfRemovedObject(c, namespace, spec.secretKeyFrom.value); }
    if spec.keyringFrom.Some? { KeyOfRemovedObject(c, namespace, spec.keyringFrom.value); }
    var r :| (r in spec.valuesFrom || r in spec.secretValuesFrom) && r.kind == kind && r.name == name;
    assert FetchReference(less, namespace, r).None?;
    ReadableCounts(less, namespace, spec.valuesFrom);
    ReadableCounts(less, namespace, spec.secretValuesFrom);
  }

  /** Taking away a referenced object changes the outcome in a cluster where all was readable. */
  lemma RemovalShows(namespace: string, spec: Spec, kind: string, name: string, chartFiles: seq<string>)
    requires ValidSpec(spec) && RefersTo(spec, kind, name)
    ensures var c := Complete(namespace, spec);
            Expected(c, namespace, spec, chartFiles)
            != Expected(Without(c, kind, ObjectKey(namespace, name)), namespace, spec, chartFiles)
  {
    var c := Complete(namespace, spec);
    var less := Without(c, kind, ObjectKey(namespace, name));
    CompleteResolves(namespace, spec);
    if Resolvable(less, namespace, spec) {
      SkippedReference(c, namespace, spec, kind, name);
      DifferentLengths(c, less, namespace, spec, chartFiles);
    }
  }

  lemma DifferentLengths(a: Objects, b: Objects, namespace: string, spec: Spec, chartFiles: seq<string>)
    requires Resolvable(a, namespace, spec) && Resolvable(b, namespace, spec)
    requires || |Readable(a, namespace, spec.valuesFrom)| != |Readable(b, namespace, spec.valuesFrom)|
             || |Readable(a, namespace, spec.secretValuesFrom)| != |Readable(b, namespace, spec.secretValuesFrom)|
    ensures Meant(a, namespace, spec, chartFiles) != Meant(b, namespace, spec, chartFiles)
  {
    assert |Meant(a, namespace, spec, chartFiles).values| - |Readable(a, namespace, spec.valuesFrom)|
        == |Meant(b, namespace, spec, chartFiles).values| - |Readable(b, namespace, spec.valuesFrom)|;
  }

  lemma SlashFreeKeyText(namespace: string, a: string, b: string)
    ensures KeyText(ObjectKey(namespace, a)) == KeyText(ObjectKey(namespace, b)) ==> a == b
  {
    if KeyText(ObjectKey(namespace, a)) == KeyText(ObjectKey(namespace, b)) {
      assert a == KeyText(ObjectKey(namespace, a))[|namespace| + 1..];
      assert b == KeyText(ObjectKey(namespace, b))[|namespace| + 1..];
    }
  }

  /**
   The index is exact: it lists an object of the release's namespace if and only if in some
   cluster the outcome depends on whether that object is there.
   */
  lemma IndexIsExact(namespace: string, spec: Spec, kind: string, name: string, chartFiles: seq<string>)
    requires ValidSpec(spec) && (kind == CONFIG_MAP || kind == SECRET)
    ensures var k := ObjectKey(namespace, name);
            Indexed(spec, kind, namespace, KeyText(k)) <==>
            exists c ::
              Expected(c, namespace, spec, chartFiles) != Expected(Without(c, kind, k), namespace, spec, chartFiles)
  {
    var k := ObjectKey(namespace, name);
    if Indexed(spec, kind, namespace, KeyText(k)) {
      var n :| RefersTo(spec, kind, n) && KeyText(k) == KeyText(ObjectKey(namespace, n));
      SlashFreeKeyText(namespace, name, n);
      RemovalShows(namespace, spec, kind, name, chartFiles);
    } else {
      forall c
        ensures Expected(c, namespace, spec, chartFiles) == Expected(Without(c, kind, k), namespace, spec, chartFiles)
      {
        assert AgreeOnIndexed(c, Without(c, kind, k), namespace, spec);
        ResolutionDependsOnlyOnIndexed(c, Without(c, kind, k), namespace, spec, chartFiles);
      }
    }
  }

  // ----- requestsForConfigDependency -----

  datatype Entry = Entry(name: ObjectKey, spec: Spec)

  /** The releases to reconcile when an object of the kind changes. */
  method RequestsForConfigDependency(kind: string, changed: ObjectKey, releases: seq<Entry>)
    returns (requests: seq<ObjectKey>)
    ensures forall q :: q in requests <==>
              exists e :: e in releases && e.name == q && Indexed(e.spec, kind, e.name.namespace, KeyText(changed))
  {
    requests := [];
    for i := 0 to |releases|
      invariant forall q :: q in requests <==>
                  exists e ::
                    e in releases[..i] && e.name == q && Indexed(e.spec, kind, e.name.namespace, KeyText(changed))
    {
      assert releases[..i + 1] == releases[..i] + [releases[i]];
      var keys := ConfigDependencyKeys(kind, releases[i].name.namespace, releases[i].spec);
      if KeyText(changed) in keys {
        requests := requests + [releases[i].name];
      }
    }
    assert releases[..|releases|] == releases;
  }

  /**
   No relevant change is missed: if only one object changes and that changes what a release
   resolves to, the index lists the object for the release.
   */
  lemma NoRelevantChangeIsMissed(
    a: Objects, b: Objects, kind: string, changed: ObjectKey, e: Entry, chartFiles: seq<string>)
    requires ValidSpec(e.spec) && (kind == CONFIG_MAP || kind == SECRET)
    requires forall k :: (kind == CONFIG_MAP && k == changed) || SameEntry(a.configMaps, b.configMaps, k)
    requires forall k :: (kind == SECRET && k == changed) || SameEntry(a.secrets, b.secrets, k)
    requires Expected(a, e.name.namespace, e.spec, chartFiles) != Expected(b, e.name.namespace, e.spec, chartFiles)
    ensures Indexed(e.spec, kind, e.name.namespace, KeyText(changed))
  {
    if !Indexed(e.spec, kind, e.name.namespace, KeyText(changed)) {
      ResolutionDependsOnlyOnIndexed(a, b, e.name.namespace, e.spec, chartFiles);
    }
  }
}
