/** Resolving the values of a release from the cluster. */
module Values {
  import opened Basics

  type Bytes = string

  type DataMap = map<ObjectKey, map<string, Bytes>>

  /** What can be read: an object that is missing or cannot be read is not in its map. */
  datatype Objects = Objects(configMaps: DataMap, secrets: DataMap)

  datatype ValuesReference = ValuesReference(kind: string, name: string, dataKey: string, optional: bool)

  datatype KeyReference = KeyReference(kind: string, name: string, dataKey: string)

  datatype Spec = Spec(
    values: Option<Bytes>,
    valuesFrom: seq<ValuesReference>,
    secretKeyFrom: Option<KeyReference>,
    secretValuesFrom: seq<ValuesReference>,
    keyringFrom: Option<KeyReference>)

  const CONFIG_MAP := "ConfigMap"
  const SECRET := "Secret"

  /** The kinds that API validation admits. */
  predicate ValidSpec(spec: Spec) {
    && (forall r :: r in spec.valuesFrom ==> r.kind == CONFIG_MAP || r.kind == SECRET)
    && (forall r :: r in spec.secretValuesFrom ==> r.kind == CONFIG_MAP || r.kind == SECRET)
    && (spec.secretKeyFrom.Some? ==> spec.secretKeyFrom.value.kind == SECRET)
    && (spec.keyringFrom.Some? ==> spec.keyringFrom.value.kind == SECRET)
  }

  /** A values file: one that comes with the chart, or contents written for this pass. */
  datatype File = ChartFile(path: string) | Contents(data: Bytes)

  datatype Resolved = Resolved(values: seq<File>, secretValues: seq<File>, secretKey: string, keyring: Option<Bytes>)

  datatype Error = ValuesFrom(index: nat) | SecretKey | SecretValuesFrom(index: nat) | Keyring

  datatype Outcome = Success(value: Resolved) | Failure(error: Error)

  // ----- Lookups -----

  function Lookup(objects: DataMap, namespace: string, name: string, key: string): Option<Bytes> {
    var k := ObjectKey(namespace, name);
    if k in objects && key in objects[k] then Some(objects[k][key]) else None
  }

  function DefaultedKey(key: string, fallback: string): string {
    if key == "" then fallback else key
  }

  function FetchReference(c: Objects, namespace: string, ref: ValuesReference): Option<Bytes> {
    if ref.kind == CONFIG_MAP then Lookup(c.configMaps, namespace, ref.name, DefaultedKey(ref.dataKey, "values.yaml"))
    else if ref.kind == SECRET then Lookup(c.secrets, namespace, ref.name, DefaultedKey(ref.dataKey, "values.yaml"))
    else None
  }

  /** fetchSecretKey and the keyring: always a Secret, whatever the reference says. */
  function FetchKey(c: Objects, namespace: string, ref: KeyReference): Option<Bytes> {
    Lookup(c.secrets, namespace, ref.name, DefaultedKey(ref.dataKey, "key"))
  }

  /**
   Which entry a reference reads: the one under its data key, or under "values.yaml" when it names none,
   of the ConfigMap or Secret of its name in the release's namespace, and nothing if that is not there.
   */
  lemma ReadsNamedEntry(c: Objects, namespace: string, ref: ValuesReference, objects: DataMap)
    requires (ref.kind == CONFIG_MAP && objects == c.configMaps) || (ref.kind == SECRET && objects == c.secrets)
    ensures var k, data := ObjectKey(namespace, ref.name), FetchReference(c, namespace, ref);
            && (k !in objects ==> data == None)
            && (k in objects && ref.dataKey != "" ==>
                  data == if ref.dataKey in objects[k] then Some(objects[k][ref.dataKey]) else None)
            && (k in objects && ref.dataKey == "" ==>
                  data == if "values.yaml" in objects[k] then Some(objects[k]["values.yaml"]) else None)
  {
  }

  /** The secret key and the keyring: always a Secret, under the data key or "key". */
  lemma ReadsNamedKey(c: Objects, namespace: string, ref: KeyReference)
    ensures var k, data := ObjectKey(namespace, ref.name), FetchKey(c, namespace, ref);
            && (k !in c.secrets ==> data == None)
            && (k in c.secrets && ref.dataKey != "" ==>
                  data == if ref.dataKey in c.secrets[k] then Some(c.secrets[k][ref.dataKey]) else None)
            && (k in c.secrets && ref.dataKey == "" ==>
                  data == if "key" in c.secrets[k] then Some(c.secrets[k]["key"]) else None)
  {
  }

  // ----- What resolution is meant to give -----

  /** A required reference that cannot be read. */
  predicate Broken(c: Objects, namespace: string, ref: ValuesReference) {
    !ref.optional && FetchReference(c, namespace, ref).None?
  }

  predicate AllRead(c: Objects, namespace: string, refs: seq<ValuesReference>) {
    forall r :: r in refs ==> !Broken(c, namespace, r)
  }

  predicate KeyRead(c: Objects, namespace: string, ref: Option<KeyReference>) {
    ref.Some? ==> FetchKey(c, namespace, ref.value).Some?
  }

  /** The contents of the readable references, in declared order. */
  function Readable(c: Objects, namespace: string, refs: seq<ValuesReference>): seq<File> {
    if refs == [] then []
    else
      var data := FetchReference(c, namespace, refs[0]);
      (if data.Some? then [Contents(data.value)] else []) + Readable(c, namespace, refs[1..])
  }

  predicate Resolvable(c: Objects, namespace: string, spec: Spec) {
    && AllRead(c, namespace, spec.valuesFrom) && KeyRead(c, namespace, spec.secretKeyFrom)
    && AllRead(c, namespace, spec.secretValuesFrom) && KeyRead(c, namespace, spec.keyringFrom)
  }

  function Meant(c: Objects, namespace: string, spec: Spec, chartFiles: seq<string>): Resolved
    requires Resolvable(c, namespace, spec)
  {
    Resolved(
      seq(|chartFiles|, i requires 0 <= i < |chartFiles| => ChartFile(chartFiles[i]))
      + (if spec.values.Some? then [Contents(spec.values.value)] else [])
      + Readable(c, namespace, spec.valuesFrom),
      Readable(c, namespace, spec.secretValuesFrom),
      if spec.secretKeyFrom.Some? then FetchKey(c, namespace, spec.secretKeyFrom.value).value else "",
      if spec.keyringFrom.Some? then FetchKey(c, namespace, spec.keyringFrom.value) else None)
  }

  function FirstBroken(c: Objects, namespace: string, refs: seq<ValuesReference>): (i: nat)
    requires !AllRead(c, namespace, refs)
    ensures i < |refs| && Broken(c, namespace, refs[i])
    ensures forall j :: 0 <= j < i ==> !Broken(c, namespace, refs[j])
  {
    if Broken(c, namespace, refs[0]) then 0 else 1 + FirstBroken(c, namespace, refs[1..])
  }

  /** The outcome: all that is meant, or the first thing that could not be read. */
  function Expected(c: Objects, namespace: string, spec: Spec, chartFiles: seq<string>): Outcome {
    if Resolvable(c, namespace, spec) then Success(Meant(c, namespace, spec, chartFiles))
    else if !AllRead(c, namespace, spec.valuesFrom) then Failure(ValuesFrom(FirstBroken(c, namespace, spec.valuesFrom)))
    else if !KeyRead(c, namespace, spec.secretKeyFrom) then Failure(SecretKey)
    else if !AllRead(c, namespace, spec.secretValuesFrom)
    then Failure(SecretValuesFrom(FirstBroken(c, namespace, spec.secretValuesFrom)))
    else Failure(Keyring)
  }

  lemma {:induction false} ReadableSnoc(c: Objects, namespace: string, refs: seq<ValuesReference>, n: nat)
    requires n < |refs|
    ensures var data := FetchReference(c, namespace, refs[n]);
            Readable(c, namespace, refs[..n + 1])
            == Readable(c, namespace, refs[..n]) + (if data.Some? then [Contents(data.value)] else [])
  {
    if n == 0 {
      assert refs[..1][1..] == [];
    } else {
      assert refs[..n + 1][1..] == refs[1..][..n] && refs[..n][1..] == refs[1..][..n - 1];
      ReadableSnoc(c, namespace, refs[1..], n - 1);
    }
  }

  /** How many of the references can be read. */
  function ReadableCount(c: Objects, namespace: string, refs: seq<ValuesReference>): nat {
    if refs == [] then 0
    else ReadableCount(c, namespace, refs[1..]) + if FetchReference(c, namespace, refs[0]).Some? then 1 else 0
  }

  /** A reference that can be read stands after those declared before it that can be read too. */
  lemma {:induction false} ReadableAt(c: Objects, namespace: string, refs: seq<ValuesReference>, j: nat)
    requires j < |refs| && FetchReference(c, namespace, refs[j]).Some?
    ensures |Readable(c, namespace, refs)| == ReadableCount(c, namespace, refs)
    ensures var i := ReadableCount(c, namespace, refs[..j]);
            && i < |Readable(c, namespace, refs)|
            && Readable(c, namespace, refs)[i] == Contents(FetchReference(c, namespace, refs[j]).value)
  {
    ReadableLength(c, namespace, refs);
    if j > 0 {
      ReadableAt(c, namespace, refs[1..], j - 1);
      assert refs[..j][1..] == refs[1..][..j - 1];
    }
  }

  lemma {:induction false} ReadableLength(c: Objects, namespace: string, refs: seq<ValuesReference>)
    ensures |Readable(c, namespace, refs)| == ReadableCount(c, namespace, refs)
  {
    if refs != [] {
      ReadableLength(c, namespace, refs[1..]);
    }
  }

  /**
   Which contents stand where in what Resolve gives: the chart files first, in their order, then the inline
   values, then the readable references in declared order; so a later one overrides an earlier one.
   */
  lemma PositionsOfValues(c: Objects, namespace: string, spec: Spec, chartFiles: seq<string>)
    requires Resolvable(c, namespace, spec)
    ensures var values := Expected(c, namespace, spec, chartFiles).value.values;
            var inline := if spec.values.Some? then 1 else 0;
            && |values| == |chartFiles| + inline + ReadableCount(c, namespace, spec.valuesFrom)
            && (forall i :: 0 <= i < |chartFiles| ==> values[i] == ChartFile(chartFiles[i]))
            && (spec.values.Some? ==> values[|chartFiles|] == Contents(spec.values.value))
            && (forall j :: 0 <= j < |spec.valuesFrom| && FetchReference(c, namespace, spec.valuesFrom[j]).Some? ==>
                  var i := |chartFiles| + inline + ReadableCount(c, namespace, spec.valuesFrom[..j]);
                  i < |values| && values[i] == Contents(FetchReference(c, namespace, spec.valuesFrom[j]).value))
  {
    ReadableLength(c, namespace, spec.valuesFrom);
    forall j | 0 <= j < |spec.valuesFrom| && FetchReference(c, namespace, spec.valuesFrom[j]).Some?
      ensures var i := ReadableCount(c, namespace, spec.valuesFrom[..j]);
              i < ReadableCount(c, namespace, spec.valuesFrom) && Readable(c, namespace, spec.valuesFrom)[i]
              == Contents(FetchReference(c, namespace, spec.valuesFrom[j]).value)
    {
      ReadableAt(c, namespace, spec.valuesFrom, j);
    }
  }

  /** The same of the secret values, and what the secret key and the keyring are. */
  lemma PositionsOfSecrets(c: Objects, namespace: string, spec: Spec, chartFiles: seq<string>)
    requires Resolvable(c, namespace, spec)
    ensures var resolved := Expected(c, namespace, spec, chartFiles).value;
            && |resolved.secretValues| == ReadableCount(c, namespace, spec.secretValuesFrom)
            && (forall j :: 0 <= j < |spec.secretValuesFrom|
                            && FetchReference(c, namespace, spec.secretValuesFrom[j]).Some? ==>
                  var i := ReadableCount(c, namespace, spec.secretValuesFrom[..j]);
                  && i < |resolved.secretValues|
                  && resolved.secretValues[i] == Contents(FetchReference(c, namespace, spec.secretValuesFrom[j]).value))
            && (spec.secretKeyFrom.Some? ==>
                  Some(resolved.secretKey) == FetchKey(c, namespace, spec.secretKeyFrom.value))
            && (spec.secretKeyFrom.None? ==> resolved.secretKey == "")
            && resolved.keyring
               == if spec.keyringFrom.Some? then FetchKey(c, namespace, spec.keyringFrom.value) else None
  {
    ReadableLength(c, namespace, spec.secretValuesFrom);
    forall j | 0 <= j < |spec.secretValuesFrom| && FetchReference(c, namespace, spec.secretValuesFrom[j]).Some?
      ensures var i := ReadableCount(c, namespace, spec.secretValuesFrom[..j]);
              i < ReadableCount(c, namespace, spec.secretValuesFrom) && Readable(c, namespace, spec.secretValuesFrom)[i]
              == Contents(FetchReference(c, namespace, spec.secretValuesFrom[j]).value)
    {
      ReadableAt(c, namespace, spec.secretValuesFrom, j);
    }
  }

  lemma FirstBrokenIs(c: Objects, namespace: string, refs: seq<ValuesReference>, i: nat)
    requires i < |refs| && Broken(c, namespace, refs[i]) && forall j :: 0 <= j < i ==> !Broken(c, namespace, refs[j])
    ensures !AllRead(c, namespace, refs) && FirstBroken(c, namespace, refs) == i
  {
    assert refs[i] in refs;
  }

  /** Some required reference cannot be read. */
  predicate Unreadable(c: Objects, namespace: string, refs: seq<ValuesReference>) {
    exists r :: r in refs && !r.optional && FetchReference(c, namespace, r) == None
  }

  predicate KeyUnreadable(c: Objects, namespace: string, ref: Option<KeyReference>) {
    ref.Some? && FetchKey(c, namespace, ref.value) == None
  }

  /** Which failure is reported: that of the first step, in the order of the code, that cannot read what it needs. */
  lemma FailsAtFirst(c: Objects, namespace: string, spec: Spec, chartFiles: seq<string>)
    ensures var outcome := Expected(c, namespace, spec, chartFiles);
            if Unreadable(c, namespace, spec.valuesFrom)
            then outcome.Failure? && outcome.error == ValuesFrom(FirstBroken(c, namespace, spec.valuesFrom))
            else if KeyUnreadable(c, namespace, spec.secretKeyFrom) then outcome == Failure(SecretKey)
            else if Unreadable(c, namespace, spec.secretValuesFrom)
            then outcome.Failure? && outcome.error == SecretValuesFrom(FirstBroken(c, namespace, spec.secretValuesFrom))
            else if KeyUnreadable(c, namespace, spec.keyringFrom) then outcome == Failure(Keyring)
            else outcome.Success?
  {
    NotAllRead(c, namespace, spec.valuesFrom);
    NotAllRead(c, namespace, spec.secretValuesFrom);
  }

  lemma NotAllRead(c: Objects, namespace: string, refs: seq<ValuesReference>)
    ensures AllRead(c, namespace, refs) <==> !Unreadable(c, namespace, refs)
  {
  }

  // ----- The loops -----

  /** One of the two loops over references: append what can be read, skip what may be missing, stop at the rest. */
  method ResolveReferences(c: Objects, namespace: string, refs: seq<ValuesReference>, files: seq<File>)
    returns (broken: Option<nat>, result: seq<File>)
    ensures broken.None? <==> AllRead(c, namespace, refs)
    ensures broken.None? ==> result == files + Readable(c, namespace, refs)
    ensures broken.Some? ==> broken.value == FirstBroken(c, namespace, refs)
  {
    result := files;
    for i := 0 to |refs|
      invariant result == files + Readable(c, namespace, refs[..i])
      invariant forall j :: 0 <= j < i ==> !Broken(c, namespace, refs[j])
    {
      var data := FetchReference(c, namespace, refs[i]);
      ReadableSnoc(c, namespace, refs, i);
      if data.None? {
        if !refs[i].optional {
          FirstBrokenIs(c, namespace, refs, i);
          return Some(i), result;
        }
      } else {
        result := result + [Contents(data.value)];
      }
    }
    assert refs[..|refs|] == refs;
    broken := None;
  }

  /**
   Resolve refines its specification: chart files, then inline values, then each readable
   valuesFrom entry in declared order, and it fails exactly when some required reference, the
   secret key or the keyring cannot be read, naming the first.
   */
  method Resolve(c: Objects, namespace: string, spec: Spec, chartFiles: seq<string>) returns (outcome: Outcome)
    ensures outcome == Expected(c, namespace, spec, chartFiles)
    ensures outcome.Success? <==> Resolvable(c, namespace, spec)
  {
    var values := seq(|chartFiles|, i requires 0 <= i < |chartFiles| => ChartFile(chartFiles[i]));
    if spec.values.Some? {
      values := values + [Contents(spec.values.value)];
    }
    var broken;
    broken, values := ResolveReferences(c, namespace, spec.valuesFrom, values);
    if broken.Some? {
      return Failure(ValuesFrom(broken.value));
    }
    var secretKey := "";
    if spec.secretKeyFrom.Some? {
      var key := FetchKey(c, namespace, spec.secretKeyFrom.value);
      if key.None? {
        return Failure(SecretKey);
      }
      secretKey := key.value;
    }
    var secretValues;
    broken, secretValues := ResolveReferences(c, namespace, spec.secretValuesFrom, []);
    if broken.Some? {
      return Failure(SecretValuesFrom(broken.value));
    }
    var keyring := None;
    if spec.keyringFrom.Some? {
      keyring := FetchKey(c, namespace, spec.keyringFrom.value);
      if keyring.None? {
        return Failure(Keyring);
      }
    }
    assert [] + Readable(c, namespace, spec.secretValuesFrom) == Readable(c, namespace, spec.secretValuesFrom);
    outcome := Success(Resolved(values, secretValues, secretKey, keyring));
  }
}
