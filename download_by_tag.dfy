/**
 * The tag filter the download-by-tag commands build from their command-line
 * options, and how it relates to the tags an upload writes.
 */
module DownloadByTag {

  import opened Wrappers
  import opened Numbers
  import opened Kinds
  import Constants
  import opened TagFilter
  import opened PackageToUpload
  import opened StorageService

  /** The filter options of the download-by-tag commands; `None` is an option not given. */
  datatype FilterOptions = FilterOptions(
    version: Option<string>,
    buildNumber: Option<uint32>,
    cu: Option<uint32>,
    gerritId: Option<uint32>,
    patchSet: Option<uint32>,
    packageType: Option<PackageType>,
    upgradeType: Option<UpgradeType>)

  /** The equality condition on a tag, when the option is given. */
  function Wanted(tag: string, text: Option<string>): (r: seq<Condition>)
    ensures |r| == if text.Some? then 1 else 0
    ensures r != [] ==> r[0] == Condition(tag, Eq, text.value)
  {
    if text.Some? then [Condition(tag, Eq, text.value)] else []
  }

  function NumberText(n: Option<uint32>): Option<string> {
    if n.Some? then Some(ToDecimal(n.value as nat)) else None
  }

  function TypeText(t: Option<PackageType>): Option<string> {
    if t.Some? then Some(PackageTypeName(t.value)) else None
  }

  function UpgradeText(u: Option<UpgradeType>): Option<string> {
    if u.Some? then Some(UpgradeTypeName(u.value)) else None
  }

  /** The conditions a filter holds for the given options: one per option given, in this order. */
  function Requested(o: FilterOptions): seq<Condition> {
    Wanted(Constants.VersionTagName, o.version)
    + Wanted(Constants.BuildNumberTagName, NumberText(o.buildNumber))
    + Wanted(Constants.CuTagName, NumberText(o.cu))
    + Wanted(Constants.GerritIdTagName, NumberText(o.gerritId))
    + Wanted(Constants.PatchSetTagName, NumberText(o.patchSet))
    + Wanted(Constants.TypeTagName, TypeText(o.packageType))
    + Wanted(Constants.UpgradeTypeTagName, UpgradeText(o.upgradeType))
  }

  /** One `if` of `GetFilter`: the option's condition is added when the option is given, and nothing otherwise. */
  method AddVersion(filter: PackageTagFilter, version: Option<string>)
    requires filter.Valid()
    modifies filter, filter.builder
    ensures filter.Valid() && filter.predicates == old(filter.predicates) + Wanted(Constants.VersionTagName, version)
  {
    if version.Some? {
      filter.WithVersion(version.value);
    }
  }

  method AddBuildNumber(filter: PackageTagFilter, buildNumber: Option<uint32>)
    requires filter.Valid()
    modifies filter, filter.builder
    ensures filter.Valid() && filter.predicates == old(filter.predicates) + Wanted(Constants.BuildNumberTagName, NumberText(buildNumber))
  {
    if buildNumber.Some? {
      filter.WithBuildNumber(buildNumber.value);
    }
  }

  method AddCu(filter: PackageTagFilter, cu: Option<uint32>)
    requires filter.Valid()
    modifies filter, filter.builder
    ensures filter.Valid() && filter.predicates == old(filter.predicates) + Wanted(Constants.CuTagName, NumberText(cu))
  {
    if cu.Some? {
      filter.WithCu(cu.value);
    }
  }

  method AddGerritId(filter: PackageTagFilter, gerritId: Option<uint32>)
    requires filter.Valid()
    modifies filter, filter.builder
    ensures filter.Valid() && filter.predicates == old(filter.predicates) + Wanted(Constants.GerritIdTagName, NumberText(gerritId))
  {
    if gerritId.Some? {
      filter.WithGerritId(gerritId.value);
    }
  }

  method AddPatchSet(filter: PackageTagFilter, patchSet: Option<uint32>)
    requires filter.Valid()
    modifies filter, filter.builder
    ensures filter.Valid() && filter.predicates == old(filter.predicates) + Wanted(Constants.PatchSetTagName, NumberText(patchSet))
  {
    if patchSet.Some? {
      filter.WithPatchSet(patchSet.value);
    }
  }

  method AddType(filter: PackageTagFilter, packageType: Option<PackageType>)
    requires filter.Valid()
    modifies filter, filter.builder
    ensures filter.Valid() && filter.predicates == old(filter.predicates) + Wanted(Constants.TypeTagName, TypeText(packageType))
  {
    if packageType.Some? {
      filter.WithType(packageType.value);
    }
  }

  method AddUpgradeType(filter: PackageTagFilter, upgradeType: Option<UpgradeType>)
    requires filter.Valid()
    modifies filter, filter.builder
    ensures filter.Valid() && filter.predicates == old(filter.predicates) + Wanted(Constants.UpgradeTypeTagName, UpgradeText(upgradeType))
  {
    if upgradeType.Some? {
      filter.WithUpgradeType(upgradeType.value);
    }
  }

  /** `GetFilter`: one `With…` call for every option given, in the order of the tag names. */
  method GetFilter(o: FilterOptions) returns (filter: PackageTagFilter)
    ensures fresh(filter) && fresh(filter.builder)
    ensures filter.Valid() && filter.predicates == Requested(o)
  {
    filter := new PackageTagFilter();
    AddVersion(filter, o.version);
    assert filter.predicates == Wanted(Constants.VersionTagName, o.version);
    AddBuildNumber(filter, o.buildNumber);
    AddCu(filter, o.cu);
    AddGerritId(filter, o.gerritId);
    AddPatchSet(filter, o.patchSet);
    AddType(filter, o.packageType);
    AddUpgradeType(filter, o.upgradeType);
  }

  function Given<T>(x: Option<T>): nat {
    if x.Some? then 1 else 0
  }

  /** The tags a list of conditions is on. */
  function TagSet(cs: seq<Condition>): set<string> {
    set i | 0 <= i < |cs| :: cs[i].tag
  }

  predicate DistinctTags(cs: seq<Condition>) {
    forall i, j | 0 <= i < j < |cs| :: cs[i].tag != cs[j].tag
  }

  predicate AllEqualities(cs: seq<Condition>) {
    forall i | 0 <= i < |cs| :: cs[i].op == Eq
  }

  /** Adding the condition for one more option, on a tag not used yet. */
  lemma AppendWanted(cs: seq<Condition>, tag: string, text: Option<string>)
    requires DistinctTags(cs) && AllEqualities(cs) && tag !in TagSet(cs)
    ensures var r := cs + Wanted(tag, text);
      && DistinctTags(r) && AllEqualities(r)
      && TagSet(r) <= TagSet(cs) + {tag}
      && |r| == |cs| + Given(text)
  {
    var r := cs + Wanted(tag, text);
    forall t | t in TagSet(r)
      ensures t in TagSet(cs) + {tag}
    {
      var i :| 0 <= i < |r| && r[i].tag == t;
      if i < |cs| {
        assert cs[i].tag == t;
      }
    }
    forall i, j | 0 <= i < j < |r|
      ensures r[i].tag != r[j].tag
    {
      if j >= |cs| && i < |cs| {
        assert cs[i].tag in TagSet(cs);
      }
    }
  }

  /**
   * The filter has one equality per option given; it is empty, and the download
   * refused, exactly when no option is given. A version given as the empty string
   * still counts, as the first condition.
   */
  lemma RequestedCount(o: FilterOptions)
    ensures |Requested(o)| == Given(o.version) + Given(o.buildNumber) + Given(o.cu) + Given(o.gerritId)
                              + Given(o.patchSet) + Given(o.packageType) + Given(o.upgradeType)
    ensures Requested(o) == [] <==> o == FilterOptions(None, None, None, None, None, None, None)
    ensures o.version == Some([]) ==> Requested(o)[0] == Condition(Constants.VersionTagName, Eq, [])
  {
    if o.version.Some? {
      var rest := Requested(o)[1..];
      assert Requested(o) == Wanted(Constants.VersionTagName, o.version) + rest;
    }
  }

  /** The conditions of the first four options. */
  function Leading(o: FilterOptions): seq<Condition> {
    Wanted(Constants.VersionTagName, o.version)
    + Wanted(Constants.BuildNumberTagName, NumberText(o.buildNumber))
    + Wanted(Constants.CuTagName, NumberText(o.cu))
    + Wanted(Constants.GerritIdTagName, NumberText(o.gerritId))
  }

  lemma LeadingTags(o: FilterOptions)
    ensures AllEqualities(Leading(o)) && DistinctTags(Leading(o))
    ensures TagSet(Leading(o)) <= {Constants.VersionTagName, Constants.BuildNumberTagName, Constants.CuTagName, Constants.GerritIdTagName}
  {
    var p0 := Wanted(Constants.VersionTagName, o.version);
    assert TagSet(p0) <= {Constants.VersionTagName};
    AppendWanted(p0, Constants.BuildNumberTagName, NumberText(o.buildNumber));
    var p1 := p0 + Wanted(Constants.BuildNumberTagName, NumberText(o.buildNumber));
    AppendWanted(p1, Constants.CuTagName, NumberText(o.cu));
    var p2 := p1 + Wanted(Constants.CuTagName, NumberText(o.cu));
    AppendWanted(p2, Constants.GerritIdTagName, NumberText(o.gerritId));
  }

  /** No two conditions of the filter are on the same tag, and each is an equality on one of the seven tag names. */
  lemma RequestedTags(o: FilterOptions)
    ensures AllEqualities(Requested(o)) && DistinctTags(Requested(o))
    ensures forall t | t in TagSet(Requested(o)) :: t in Constants.TagNames
  {
    var p3 := Leading(o);
    LeadingTags(o);
    AppendWanted(p3, Constants.PatchSetTagName, NumberText(o.patchSet));
    var p4 := p3 + Wanted(Constants.PatchSetTagName, NumberText(o.patchSet));
    AppendWanted(p4, Constants.TypeTagName, TypeText(o.packageType));
    var p5 := p4 + Wanted(Constants.TypeTagName, TypeText(o.packageType));
    AppendWanted(p5, Constants.UpgradeTypeTagName, UpgradeText(o.upgradeType));
  }

  /** A query of conditions joined by `AND` holds when each part does. */
  lemma SatisfiesAppend(tags: map<string, string>, a: seq<Condition>, b: seq<Condition>)
    ensures Satisfies(tags, a + b) <==> Satisfies(tags, a) && Satisfies(tags, b)
  {
    if Satisfies(tags, a) && Satisfies(tags, b) {
      forall i | 0 <= i < |a + b|
        ensures Holds(tags, (a + b)[i])
      {
        if i >= |a| {
          assert (a + b)[i] == b[i - |a|];
        }
      }
    }
    if Satisfies(tags, a + b) {
      forall i | 0 <= i < |a|
        ensures Holds(tags, a[i])
      {
        assert (a + b)[i] == a[i];
      }
      forall i | 0 <= i < |b|
        ensures Holds(tags, b[i])
      {
        assert (a + b)[|a| + i] == b[i];
      }
    }
  }

  /** Every option given equals the package's property. */
  predicate Agrees(o: FilterOptions, p: Package) {
    && (o.version.Some? ==> o.version.value == p.version)
    && (o.buildNumber.Some? ==> o.buildNumber.value == p.buildNumber)
    && (o.cu.Some? ==> o.cu == p.cu)
    && (o.gerritId.Some? ==> o.gerritId == p.gerritId)
    && (o.patchSet.Some? ==> o.patchSet == p.patchSet)
    && (o.packageType.Some? ==> o.packageType.value == p.packageType)
    && (o.upgradeType.Some? ==> o.upgradeType == p.upgradeType)
  }

  /** One number option against the tag an upload wrote for an optional number. */
  lemma NumberMatches(tags: map<string, string>, tag: string, wanted: Option<uint32>, stored: Option<uint32>)
    requires tag in tags && tags[tag] == OptionalDecimal(stored)
    ensures Satisfies(tags, Wanted(tag, NumberText(wanted))) <==> (wanted.Some? ==> wanted == stored)
  {
    if wanted.Some? {
      assert Wanted(tag, NumberText(wanted))[0] == Condition(tag, Eq, ToDecimal(wanted.value as nat));
      if stored.Some? && ToDecimal(wanted.value as nat) == ToDecimal(stored.value as nat) {
        ToDecimalInjective(wanted.value as nat, stored.value as nat);
      }
    }
  }

  /** Distinct package types have distinct names. */
  lemma PackageTypeNameInjective(s: PackageType, t: PackageType)
    requires PackageTypeName(s) == PackageTypeName(t)
    ensures s == t
  {
    PackageTypeNameRoundTrip(s);
    PackageTypeNameRoundTrip(t);
  }

  /**
   * Upload and download agree on the tags: a package's uploaded blob satisfies the
   * filter built from a set of options exactly when every option given equals the
   * package's property.
   */
  lemma UploadedPackageMatches(o: FilterOptions, p: Package)
    ensures Satisfies(UploadTags(p), Requested(o)) <==> Agrees(o, p)
  {
    var tags := UploadTags(p);
    var v := Wanted(Constants.VersionTagName, o.version);
    var b := Wanted(Constants.BuildNumberTagName, NumberText(o.buildNumber));
    var c := Wanted(Constants.CuTagName, NumberText(o.cu));
    var g := Wanted(Constants.GerritIdTagName, NumberText(o.gerritId));
    var s := Wanted(Constants.PatchSetTagName, NumberText(o.patchSet));
    var t := Wanted(Constants.TypeTagName, TypeText(o.packageType));
    var u := Wanted(Constants.UpgradeTypeTagName, UpgradeText(o.upgradeType));
    SatisfiesAppend(tags, v + b + c + g + s + t, u);
    SatisfiesAppend(tags, v + b + c + g + s, t);
    SatisfiesAppend(tags, v + b + c + g, s);
    SatisfiesAppend(tags, v + b + c, g);
    SatisfiesAppend(tags, v + b, c);
    SatisfiesAppend(tags, v, b);
    NumberMatches(tags, Constants.BuildNumberTagName, o.buildNumber, Some(p.buildNumber));
    NumberMatches(tags, Constants.CuTagName, o.cu, p.cu);
    NumberMatches(tags, Constants.GerritIdTagName, o.gerritId, p.gerritId);
    NumberMatches(tags, Constants.PatchSetTagName, o.patchSet, p.patchSet);
    if o.packageType.Some? && PackageTypeName(o.packageType.value) == PackageTypeName(p.packageType) {
      PackageTypeNameInjective(o.packageType.value, p.packageType);
    }
    if o.upgradeType.Some? && p.upgradeType.Some? && UpgradeTypeName(o.upgradeType.value) == UpgradeTypeName(p.upgradeType.value) {
      UpgradeTypeNameRoundTrip(o.upgradeType.value);
      UpgradeTypeNameRoundTrip(p.upgradeType.value);
    }
  }
}
