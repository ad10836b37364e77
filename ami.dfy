/**
 * The static AMI resolver of `pkg/ami`: `Resolve(region, version, instanceType, imageFamily)`
 * classifies the instance type as GPU or standard, maps the image-family name to a known family,
 * looks the combination up in a constant four-level table (version, family, class, region) and
 * returns either the AMI id with no error, or an empty id with an `ErrFailedResolution` that
 * carries the four inputs verbatim.
 */
module Ami {
  import opened Wrappers

  /** The capability class an instance type falls into. */
  datatype InstanceClass = Standard | Gpu

  /** The image families the resolver knows. */
  datatype ImageFamily = AmazonLinux2 | Ubuntu1804

  /** The resolver's one error kind; two values are equal exactly when all four fields are. */
  datatype ErrFailedResolution = ErrFailedResolution(
    region: string, version: string, instanceType: string, imageFamily: string)

  /** The Go pair `(string, error)`: an AMI id and an optional error. */
  datatype Resolution = Resolution(ami: string, err: Option<ErrFailedResolution>)

  /** `ami.NewErrFailedResolution`: the error value for a request, fields in argument order. */
  function NewErrFailedResolution(region: string, version: string, instanceType: string, imageFamily: string)
    : (e: ErrFailedResolution)
    ensures e.region == region && e.version == version
    ensures e.instanceType == instanceType && e.imageFamily == imageFamily
  {
    ErrFailedResolution(region, version, instanceType, imageFamily)
  }

  // ---------------------------------------------------------------- instance classifier

  /** Instance-type families that carry a GPU. */
  const GpuFamilies: set<string> := {"p2", "p3", "g3", "g4dn"}

  /** The family part of an instance type: everything before the first '.', or all of it. */
  function FamilyPrefix(instanceType: string): (p: string)
    ensures |p| <= |instanceType| && p == instanceType[..|p|]
    ensures '.' !in p
    ensures |p| < |instanceType| ==> instanceType[|p|] == '.'
  {
    if instanceType == [] || instanceType[0] == '.' then ""
    else [instanceType[0]] + FamilyPrefix(instanceType[1..])
  }

  /** `family` is the family of `instanceType`: the whole type, or the part before its first '.'. */
  predicate HasFamily(instanceType: string, family: string) {
    && '.' !in family
    && (instanceType == family
        || (|family| < |instanceType| && instanceType[..|family| + 1] == family + "."))
  }

  /** The prefix is the one family an instance type has. */
  lemma FamilyPrefixIsFamily(instanceType: string)
    ensures forall family :: HasFamily(instanceType, family) <==> family == FamilyPrefix(instanceType)
  {
    var p := FamilyPrefix(instanceType);
    if |p| < |instanceType| {
      assert instanceType[..|p| + 1] == p + ".";
    }
    forall family | HasFamily(instanceType, family)
      ensures family == p
    {
      var n := |family|;
      assert forall i :: 0 <= i < n ==> instanceType[i] == family[i];
      assert n < |instanceType| ==> instanceType[n] == (family + ".")[n] == '.';
    }
  }

  /**
   * The capability class of an instance type: GPU exactly when its family is one of the GPU
   * families; unknown or malformed types are standard.
   */
  function Classify(instanceType: string): (c: InstanceClass)
    ensures c == Gpu <==> exists family :: family in GpuFamilies && HasFamily(instanceType, family)
  {
    FamilyPrefixIsFamily(instanceType);
    if FamilyPrefix(instanceType) in GpuFamilies then Gpu else Standard
  }

  /** An instance type written `<family>.<size>` is classified by its family alone. */
  lemma ClassifyByFamily(family: string, size: string)
    requires '.' !in family
    ensures FamilyPrefix(family + "." + size) == family
    ensures Classify(family + "." + size) == if family in GpuFamilies then Gpu else Standard
  {
    var t := family + "." + size;
    assert forall i :: 0 <= i < |family| ==> t[i] == family[i] && t[i] != '.';
    assert t[|family|] == '.';
  }

  /** An instance type without a separator is its own family. */
  lemma ClassifyWithoutSeparator(instanceType: string)
    requires '.' !in instanceType
    ensures FamilyPrefix(instanceType) == instanceType
    ensures Classify(instanceType) == if instanceType in GpuFamilies then Gpu else Standard
  {
  }

  // ---------------------------------------------------------------- image families

  /** The name a caller uses for a family. */
  function FamilyName(family: ImageFamily): string {
    match family
    case AmazonLinux2 => "AmazonLinux2"
    case Ubuntu1804 => "Ubuntu1804"
  }

  /** The family a caller-supplied name denotes, by exact match; None for any other name. */
  function ParseFamily(name: string): (r: Option<ImageFamily>)
    ensures r.Some? <==> name == "AmazonLinux2" || name == "Ubuntu1804"
    ensures r.Some? ==> FamilyName(r.value) == name
  {
    if name == "AmazonLinux2" then Some(AmazonLinux2)
    else if name == "Ubuntu1804" then Some(Ubuntu1804)
    else None
  }

  /** Every known family is recognised under its own name. */
  lemma ParseFamilyName(family: ImageFamily)
    ensures ParseFamily(FamilyName(family)) == Some(family)
  {
  }

  // ---------------------------------------------------------------- static table

  /** The compiled table: version, then family, then class, then region, to an AMI id. */
  const ImageTable: map<string, map<ImageFamily, map<InstanceClass, map<string, string>>>> :=
    map[
      "1.12" := map[
        AmazonLinux2 := map[
          Standard := map[
            "us-west-2" := "ami-0315dd35bf204311d",
            "us-east-1" := "ami-0259ce67309f76e0b",
            "eu-west-1" := "ami-0a6be9528ebb8999d"],
          Gpu := map[
            "us-west-2" := "ami-04f40a6dd1cd12b3c",
            "us-east-1" := "ami-0585963de7ab8b964",
            "eu-west-1" := "ami-049574de1981b69dc"]],
        Ubuntu1804 := map[
          Standard := map[
            "us-west-2" := "ami-0551b6dc0b4079e1d",
            "us-east-1" := "ami-058c6e6f18b1cca2c",
            "eu-west-1" := "ami-0ac97cadeed862a54"]]]]

  /** An AMI id as the table holds them: "ami-" followed by a non-empty token. */
  predicate IsAmiId(s: string) {
    |s| > 4 && s[..4] == "ami-"
  }

  /** Exact-match descent through the four levels; a miss at any level is None. */
  function Lookup(version: string, family: ImageFamily, cls: InstanceClass, region: string)
    : (r: Option<string>)
    ensures r.Some? ==> IsAmiId(r.value)
  {
    if version !in ImageTable then None
    else if family !in ImageTable[version] then None
    else if cls !in ImageTable[version][family] then None
    else if region !in ImageTable[version][family][cls] then None
    else Some(ImageTable[version][family][cls][region])
  }

  /** No AMI id appears under two different keys of the table. */
  lemma LookupInjective(
    v1: string, f1: ImageFamily, c1: InstanceClass, r1: string,
    v2: string, f2: ImageFamily, c2: InstanceClass, r2: string)
    requires Lookup(v1, f1, c1, r1).Some? && Lookup(v2, f2, c2, r2).Some?
    requires v1 != v2 || f1 != f2 || c1 != c2 || r1 != r2
    ensures Lookup(v1, f1, c1, r1).value != Lookup(v2, f2, c2, r2).value
  {
  }

  // ---------------------------------------------------------------- resolver

  /** The outcome of a request that cannot be served: no AMI and the request's own failure. */
  function Failure(region: string, version: string, instanceType: string, imageFamily: string): Resolution {
    Resolution("", Some(NewErrFailedResolution(region, version, instanceType, imageFamily)))
  }

  /**
   * `ami.Resolve`: the AMI for a request, or an empty id and the failure built from the
   * request exactly as supplied. Exactly one of the two halves is present.
   */
  function Resolve(region: string, version: string, instanceType: string, imageFamily: string)
    : (r: Resolution)
    ensures r.ami == "" <==> r.err.Some?
    ensures r.err.None? ==> IsAmiId(r.ami)
    ensures r.err.Some? ==> r.err.value == NewErrFailedResolution(region, version, instanceType, imageFamily)
  {
    var failure := Failure(region, version, instanceType, imageFamily);
    match ParseFamily(imageFamily)
    case None => failure
    case Some(family) =>
      match Lookup(version, family, Classify(instanceType), region)
      case None => failure
      case Some(id) => Resolution(id, None)
  }
}
