/** The index that finds the releases reading a HelmChart or OCIRepository, against what a settled pass reads. */
module SourceIndex {
  import opened Basics
  import opened Protocol

  /** spec.chart: at most one of the four is meant to be set. The bodies are opaque. */
  datatype InlineChart = InlineChart(
    git: Option<string>, repo: Option<string>, bucket: Option<string>, oci: Option<string>)

  datatype ReleaseObject = ReleaseObject(
    namespace: string,
    name: string,
    chart: Option<InlineChart>,
    chartRef: Option<ChartRef>)

  /** The API's exactly-one rules. */
  predicate Admitted(rel: ReleaseObject) {
    && (rel.chart.Some? <==> rel.chartRef.None?)
    && (rel.chart.Some? ==>
          var c := rel.chart.value;
          (if c.git.Some? then 1 else 0) + (if c.repo.Some? then 1 else 0)
          + (if c.bucket.Some? then 1 else 0) + (if c.oci.Some? then 1 else 0) == 1)
  }

  // ----- Names -----

  /** A hash cut to twelve characters; nothing else is assumed of it. */
  ghost predicate IsHash(hash: string -> string) {
    forall s :: |hash(s)| == 12
  }

  function TrimRight(s: string, c: char): string {
    if s != "" && s[|s| - 1] == c then TrimRight(s[..|s| - 1], c) else s
  }

  /** GetObjectHashedName. */
  function ObjectHashedName(hash: string -> string, name: string, spec: string): string {
    TrimRight(name, '-') + "-" + hash(spec)
  }

  /** GetHelmChartHashedName. */
  function HelmChartName(hash: string -> string, namespace: string, name: string): string {
    var prefix := namespace + "-inline-" + name;
    prefix + "-" + hash(prefix)
  }

  /** The release name can be read back from the name of its HelmChart. */
  lemma NameInHelmChartName(hash: string -> string, namespace: string, name: string)
    requires IsHash(hash)
    ensures var full, start := HelmChartName(hash, namespace, name), |namespace| + 8;
            |full| == start + |name| + 13 && full[start..|full| - 13] == name
  {
    var prefix := namespace + "-inline-" + name;
    assert |hash(prefix)| == 12;
  }

  /** Two releases of one namespace never share a HelmChart, whatever the hash function. */
  lemma HelmChartNamesDiffer(hash: string -> string, namespace: string, a: string, b: string)
    requires IsHash(hash) && a != b
    ensures HelmChartName(hash, namespace, a) != HelmChartName(hash, namespace, b)
  {
    NameInHelmChartName(hash, namespace, a);
    NameInHelmChartName(hash, namespace, b);
  }

  // ----- What the release builds and reads -----

  /** BuildChartSourceFromRelease: kind and name of the source that spec.chart builds. */
  function BuildChartSource(hash: string -> string, rel: ReleaseObject): Option<(string, string)>
    requires rel.chart.Some?
  {
    var c := rel.chart.value;
    var base := rel.namespace + "-inline";
    if c.git.Some? then Some(("GitRepository", ObjectHashedName(hash, base, c.git.value)))
    else if c.repo.Some? then Some(("HelmRepository", ObjectHashedName(hash, base, c.repo.value)))
    else if c.bucket.Some? then Some(("Bucket", ObjectHashedName(hash, base, c.bucket.value)))
    else if c.oci.Some? then Some(("OCIRepository", ObjectHashedName(hash, base, c.oci.value)))
    else None
  }

  /** The release as the phase machine sees it. */
  function ToSpec(hash: string -> string, group: string, version: string, rel: ReleaseObject): Spec
    requires rel.chart.Some? || rel.chartRef.Some?
  {
    if rel.chart.None? then UserRef(rel.chartRef.value)
    else
      match BuildChartSource(hash, rel)
      case None => Unbuildable
      case Some((kind, name)) => Inline(Ref(group, version, kind, rel.namespace, name))
  }

  /** The object that ResolveChartRef gets for the target a pass resolved to. */
  function ObjectRead(hash: string -> string, rel: ReleaseObject, target: Target): Key {
    match target
    case OwnHelmChart => Key("HelmChart", rel.namespace, HelmChartName(hash, rel.namespace, rel.name))
    case OciSource(name) => Key("OCIRepository", rel.namespace, name)
    case UserObject(chartRef) => Key(chartRef.kind, chartRef.namespace, chartRef.name)
  }

  // ----- The index -----

  function SourceKeyText(k: Key): string {
    k.kind + "/" + KeyText(ObjectKey(k.namespace, k.name))
  }

  /** The key the index function chooses. */
  function IndexedKey(hash: string -> string, rel: ReleaseObject): Option<Key> {
    if rel.chartRef.Some? then
      var ref := Defaulted(rel.chartRef.value, rel.namespace);
      Some(Key(ref.kind, ref.namespace, ref.name))
    else if rel.chart.Some? && rel.chart.value.oci.Some? then
      var built := BuildChartSource(hash, rel);
      if built.None? then None else Some(Key(built.value.0, rel.namespace, built.value.1))
    else if rel.chart.Some? then Some(Key("HelmChart", rel.namespace, HelmChartName(hash, rel.namespace, rel.name)))
    else None
  }

  function IndexText(hash: string -> string, rel: ReleaseObject): Option<string> {
    var k := IndexedKey(hash, rel);
    if k.None? then None else Some(SourceKeyText(k.value))
  }

  /** The text up to its first slash. */
  function BeforeSlash(text: string): string {
    if text == "" || text[0] == '/' then "" else [text[0]] + BeforeSlash(text[1..])
  }

  lemma {:induction false} BeforeSlashIs(a: string, x: string)
    requires '/' !in a
    ensures BeforeSlash(a + "/" + x) == a
  {
    if a != "" {
      assert (a + "/" + x)[1..] == a[1..] + "/" + x;
      BeforeSlashIs(a[1..], x);
      assert a == [a[0]] + a[1..];
    }
  }

  lemma SplitAtSlash(a: string, b: string, x: string, y: string)
    requires '/' !in a && '/' !in b && a + "/" + x == b + "/" + y
    ensures a == b && x == y
  {
    BeforeSlashIs(a, x);
    BeforeSlashIs(b, y);
    assert x == (a + "/" + x)[|a| + 1..] && y == (b + "/" + y)[|b| + 1..];
  }

  /** Keys are injective in kind, namespace and name, as long as kind and namespace hold no slash. */
  lemma KeyTextInjective(j: Key, k: Key)
    requires '/' !in j.kind && '/' !in k.kind && '/' !in j.namespace && '/' !in k.namespace
    ensures SourceKeyText(j) == SourceKeyText(k) <==> j == k
  {
    if SourceKeyText(j) == SourceKeyText(k) {
      assert SourceKeyText(j) == j.kind + "/" + (j.namespace + "/" + j.name);
      assert SourceKeyText(k) == k.kind + "/" + (k.namespace + "/" + k.name);
      SplitAtSlash(j.kind, k.kind, j.namespace + "/" + j.name, k.namespace + "/" + k.name);
      SplitAtSlash(j.namespace, k.namespace, j.name, k.name);
    }
  }

  /** What a pass resolves to once its source phase is settled. */
  function SettledTarget(rel: Release): Option<Target> {
    match FirstCall(rel)
    case Idle(Resolved(target)) => Some(target)
    case ApplyHelmChart => Some(OwnHelmChart)
    case _ => None
  }

  /** The stored release is settled: nothing to do for its sources but to deploy from them. */
  predicate Settled(rel: Release) {
    && !rel.deleting && rel.finalizer
    && match rel.spec
       case Inline(source) => rel.status.phase == Ready && rel.status.lastApplied == Some(source)
       case UserRef(_) => rel.status == CLEARED
       case Unbuildable => false
  }

  /**
   The watch index agrees with the reconciler: for every release the API admits, the index key is
   the kind, namespace and name of the object that a settled pass reads.
   */
  lemma IndexAgreesWithReconciler(
    hash: string -> string, group: string, version: string, obj: ReleaseObject, rel: Release)
    requires Admitted(obj) && rel.namespace == obj.namespace
    requires rel.spec == ToSpec(hash, group, version, obj) && Settled(rel)
    ensures SettledTarget(rel).Some?
    ensures IndexedKey(hash, obj) == Some(ObjectRead(hash, obj, SettledTarget(rel).value))
    ensures IndexText(hash, obj) == Some(SourceKeyText(ObjectRead(hash, obj, SettledTarget(rel).value)))
  {
  }

  /** The base name of an inline source ends in no dash, so nothing is trimmed off it. */
  lemma HashedInlineName(hash: string -> string, namespace: string, spec: string)
    ensures ObjectHashedName(hash, namespace + "-inline", spec) == namespace + "-inline-" + hash(spec)
  {
    var base := namespace + "-inline";
    assert base[|base| - 1] == 'e';
    assert base + "-" == namespace + "-inline-";
  }

  /** Kind and name of the source that spec.chart builds, for each of the four ways to give one. */
  lemma BuiltSource(hash: string -> string, rel: ReleaseObject)
    requires Admitted(rel) && rel.chart.Some?
    ensures var c, built, prefix := rel.chart.value, BuildChartSource(hash, rel), rel.namespace + "-inline-";
            && (c.git.Some? ==> built == Some(("GitRepository", prefix + hash(c.git.value))))
            && (c.repo.Some? ==> built == Some(("HelmRepository", prefix + hash(c.repo.value))))
            && (c.bucket.Some? ==> built == Some(("Bucket", prefix + hash(c.bucket.value))))
            && (c.oci.Some? ==> built == Some(("OCIRepository", prefix + hash(c.oci.value))))
  {
    var c := rel.chart.value;
    if c.git.Some? { HashedInlineName(hash, rel.namespace, c.git.value); }
    if c.repo.Some? { HashedInlineName(hash, rel.namespace, c.repo.value); }
    if c.bucket.Some? { HashedInlineName(hash, rel.namespace, c.bucket.value); }
    if c.oci.Some? { HashedInlineName(hash, rel.namespace, c.oci.value); }
  }

  /** The reference that the phase machine compares and stores: that source, under the operator's group and version. */
  lemma BuiltReference(hash: string -> string, group: string, version: string, rel: ReleaseObject)
    requires Admitted(rel)
    ensures match ToSpec(hash, group, version, rel)
            case UserRef(chartRef) => rel.chart.None? && rel.chartRef == Some(chartRef)
            case Unbuildable => false
            case Inline(ref) =>
              && rel.chart.Some? && BuildChartSource(hash, rel) == Some((ref.kind, ref.name))
              && ref.group == group && ref.version == version && ref.namespace == rel.namespace
  {
  }

  /** The body of the one source that is set. */
  function Body(c: InlineChart): string {
    if c.git.Some? then c.git.value
    else if c.repo.Some? then c.repo.value
    else if c.bucket.Some? then c.bucket.value
    else if c.oci.Some? then c.oci.value
    else ""
  }

  predicate SameKind(c: InlineChart, d: InlineChart) {
    c.git.Some? == d.git.Some? && c.repo.Some? == d.repo.Some? && c.bucket.Some? == d.bucket.Some?
    && c.oci.Some? == d.oci.Some?
  }

  /**
   Who shares a source: two releases of one namespace build the same source if and only if theirs are of
   the same kind and the hashes of the two bodies agree.
   */
  lemma SharedIffSameHash(hash: string -> string, a: ReleaseObject, b: ReleaseObject)
    requires Admitted(a) && Admitted(b) && a.chart.Some? && b.chart.Some? && a.namespace == b.namespace
    ensures BuildChartSource(hash, a) == BuildChartSource(hash, b) <==>
            SameKind(a.chart.value, b.chart.value) && hash(Body(a.chart.value)) == hash(Body(b.chart.value))
  {
    BuiltSource(hash, a);
    BuiltSource(hash, b);
    var prefix := a.namespace + "-inline-";
    var x, y := hash(Body(a.chart.value)), hash(Body(b.chart.value));
    assert (prefix + x)[|prefix|..] == x && (prefix + y)[|prefix|..] == y;
  }

  /** The key, spelled out: what the watch handlers look up when that object changes. */
  lemma IndexSpelledOut(hash: string -> string, obj: ReleaseObject)
    requires Admitted(obj)
    ensures var ns, own := obj.namespace, obj.namespace + "-inline-" + obj.name;
            IndexText(hash, obj) == Some(
              if obj.chartRef.Some? then
                var ref := obj.chartRef.value;
                ref.kind + "/" + ((if ref.namespace == "" then ns else ref.namespace) + "/" + ref.name)
              else if obj.chart.value.oci.Some? then
                "OCIRepository" + "/" + (ns + "/" + (ns + "-inline-" + hash(obj.chart.value.oci.value)))
              else "HelmChart" + "/" + (ns + "/" + (own + "-" + hash(own))))
  {
    if obj.chartRef.None? {
      BuiltSource(hash, obj);
    }
    var k := IndexedKey(hash, obj).value;
    assert KeyText(ObjectKey(k.namespace, k.name)) == k.namespace + "/" + k.name;
  }

  /** What a settled spec.chart release deploys from. */
  lemma SettledInline(rel: Release, source: Ref)
    requires Settled(rel) && rel.spec == Inline(source)
    ensures SettledTarget(rel) == Some(if source.kind == "OCIRepository" then OciSource(source.name) else OwnHelmChart)
  {
  }

  lemma SameKeyIffOciIsAlone(hash: string -> string, group: string, version: string, obj: ReleaseObject, target: Target)
    requires obj.chart.Some? && obj.chartRef.None? && ToSpec(hash, group, version, obj).Inline?
    requires var source := ToSpec(hash, group, version, obj).source;
             target == if source.kind == "OCIRepository" then OciSource(source.name) else OwnHelmChart
    ensures var k, c := IndexedKey(hash, obj), obj.chart.value;
            && k.Some? && '/' !in k.value.kind && k.value.namespace == obj.namespace
            && (k.value == ObjectRead(hash, obj, target) <==>
                c.oci.None? || (c.git.None? && c.repo.None? && c.bucket.None?))
  {
  }

  /**
   Where the exactly-one rule comes in: with several inline sources set at once, the index agrees
   with what a settled pass reads if and only if oci is not among them or is the only one.
   */
  lemma AgreesIffOciIsAlone(hash: string -> string, group: string, version: string, obj: ReleaseObject, rel: Release)
    requires obj.chart.Some? && obj.chartRef.None? && '/' !in obj.namespace
    requires rel.namespace == obj.namespace && rel.spec == ToSpec(hash, group, version, obj) && Settled(rel)
    ensures SettledTarget(rel).Some? && IndexedKey(hash, obj).Some?
    ensures var c, read := obj.chart.value, ObjectRead(hash, obj, SettledTarget(rel).value);
            SourceKeyText(IndexedKey(hash, obj).value) == SourceKeyText(read) <==>
            c.oci.None? || (c.git.None? && c.repo.None? && c.bucket.None?)
  {
    SettledInline(rel, rel.spec.source);
    SameKeyIffOciIsAlone(hash, group, version, obj, SettledTarget(rel).value);
    KeyTextInjective(IndexedKey(hash, obj).value, ObjectRead(hash, obj, SettledTarget(rel).value));
  }
}
