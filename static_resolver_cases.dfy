/**
 * The table-driven test of `ami.Resolve` ("AMI Static Resolution"): each `ResolveCase` names a
 * request and the outcome it must produce, and `CasePasses` is the check run on every entry.
 * The general lemmas state, for all inputs, the properties the entries illustrate; one lemma
 * per entry then shows the entry passes.
 */
module StaticResolverCases {
  import opened Wrappers
  import opened Ami

  /** One table entry: the four inputs, the expected AMI id and whether an error is expected. */
  datatype ResolveCase = ResolveCase(
    region: string, version: string, instanceType: string, imageFamily: string,
    expectedAmi: string, expectError: bool)

  /** The entries, in the order the test lists them. */
  const Entries: seq<ResolveCase> := [
    ResolveCase("us-west-2", "1.12", "t2.medium", "AmazonLinux2", "ami-0315dd35bf204311d", false),
    ResolveCase("us-east-1", "1.12", "t2.medium", "AmazonLinux2", "ami-0259ce67309f76e0b", false),
    ResolveCase("eu-west-1", "1.12", "t2.medium", "AmazonLinux2", "ami-0a6be9528ebb8999d", false),
    ResolveCase("sa-east-1", "1.12", "t2.medium", "AmazonLinux2", "", true),
    ResolveCase("us-west-2", "1.12", "p2.xlarge", "AmazonLinux2", "ami-04f40a6dd1cd12b3c", false),
    ResolveCase("us-east-1", "1.12", "p3.2xlarge", "AmazonLinux2", "ami-0585963de7ab8b964", false),
    ResolveCase("eu-west-1", "1.12", "p2.xlarge", "AmazonLinux2", "ami-049574de1981b69dc", false),
    ResolveCase("eu-west-1", "1.12", "g3.4xlarge", "AmazonLinux2", "ami-049574de1981b69dc", false),
    ResolveCase("eu-west-1", "1.12", "g4dn.xlarge", "AmazonLinux2", "ami-049574de1981b69dc", false),
    ResolveCase("eu-east-1", "1.12", "p3.2xlarge", "AmazonLinux2", "", true),
    ResolveCase("us-west-2", "1.12", "t2.medium", "Ubuntu1804", "ami-0551b6dc0b4079e1d", false),
    ResolveCase("us-east-1", "1.12", "t2.medium", "Ubuntu1804", "ami-058c6e6f18b1cca2c", false),
    ResolveCase("eu-west-1", "1.12", "t2.medium", "Ubuntu1804", "ami-0ac97cadeed862a54", false),
    ResolveCase("sa-east-1", "1.12", "t2.medium", "Ubuntu1804", "", true),
    ResolveCase("us-east-1", "1.12", "p2.xlarge", "Ubuntu1804", "", true)
  ]

  /**
   * The per-entry check: the AMI equals the expected one, and the error is exactly the failure
   * built from the entry's inputs when one is expected, and absent otherwise.
   */
  predicate CasePasses(c: ResolveCase)
    ensures CasePasses(c) ==> (c.expectedAmi == "" <==> c.expectError)
  {
    var r := Resolve(c.region, c.version, c.instanceType, c.imageFamily);
    && r.ami == c.expectedAmi
    && if c.expectError then
         r.err == Some(NewErrFailedResolution(c.region, c.version, c.instanceType, c.imageFamily))
       else r.err.None?
  }

  /** A region the table knows. */
  predicate KnownRegion(region: string) {
    region == "us-west-2" || region == "us-east-1" || region == "eu-west-1"
  }

  // ---------------------------------------------------------------- properties for all inputs

  /** Standard instances with AmazonLinux2 at 1.12 resolve to one AMI per known region. */
  lemma StandardAmazonLinux2(instanceType: string)
    requires Classify(instanceType) == Standard
    ensures Resolve("us-west-2", "1.12", instanceType, "AmazonLinux2") == Resolution("ami-0315dd35bf204311d", None)
    ensures Resolve("us-east-1", "1.12", instanceType, "AmazonLinux2") == Resolution("ami-0259ce67309f76e0b", None)
    ensures Resolve("eu-west-1", "1.12", instanceType, "AmazonLinux2") == Resolution("ami-0a6be9528ebb8999d", None)
  {
  }

  /** GPU instances with AmazonLinux2 at 1.12 resolve to one AMI per known region. */
  lemma GpuAmazonLinux2(instanceType: string)
    requires Classify(instanceType) == Gpu
    ensures Resolve("us-west-2", "1.12", instanceType, "AmazonLinux2") == Resolution("ami-04f40a6dd1cd12b3c", None)
    ensures Resolve("us-east-1", "1.12", instanceType, "AmazonLinux2") == Resolution("ami-0585963de7ab8b964", None)
    ensures Resolve("eu-west-1", "1.12", instanceType, "AmazonLinux2") == Resolution("ami-049574de1981b69dc", None)
  {
  }

  /** Standard instances with Ubuntu1804 at 1.12 resolve to their own AMI per known region. */
  lemma StandardUbuntu1804(instanceType: string)
    requires Classify(instanceType) == Standard
    ensures Resolve("us-west-2", "1.12", instanceType, "Ubuntu1804") == Resolution("ami-0551b6dc0b4079e1d", None)
    ensures Resolve("us-east-1", "1.12", instanceType, "Ubuntu1804") == Resolution("ami-058c6e6f18b1cca2c", None)
    ensures Resolve("eu-west-1", "1.12", instanceType, "Ubuntu1804") == Resolution("ami-0ac97cadeed862a54", None)
  {
  }

  /** A region outside the table fails for every version, instance type and family. */
  lemma UnknownRegionFails(region: string, version: string, instanceType: string, imageFamily: string)
    requires !KnownRegion(region)
    ensures Resolve(region, version, instanceType, imageFamily) == Failure(region, version, instanceType, imageFamily)
  {
  }

  /** A GPU instance with Ubuntu1804 fails in every region and at every version. */
  lemma GpuUbuntu1804Fails(region: string, version: string, instanceType: string)
    requires Classify(instanceType) == Gpu
    ensures Resolve(region, version, instanceType, "Ubuntu1804") == Failure(region, version, instanceType, "Ubuntu1804")
  {
  }

  /** An image-family name other than the known ones fails before the table is consulted. */
  lemma UnknownFamilyFails(region: string, version: string, instanceType: string, imageFamily: string)
    requires imageFamily != "AmazonLinux2" && imageFamily != "Ubuntu1804"
    ensures Resolve(region, version, instanceType, imageFamily) == Failure(region, version, instanceType, imageFamily)
  {
  }

  /** In every known region a GPU instance resolves under AmazonLinux2 and fails under Ubuntu1804. */
  lemma GpuNeedsAmazonLinux2(region: string, instanceType: string)
    requires KnownRegion(region) && Classify(instanceType) == Gpu
    ensures Resolve(region, "1.12", instanceType, "AmazonLinux2").err.None?
    ensures Resolve(region, "1.12", instanceType, "Ubuntu1804") == Failure(region, "1.12", instanceType, "Ubuntu1804")
  {
    GpuAmazonLinux2(instanceType);
    GpuUbuntu1804Fails(region, "1.12", instanceType);
  }

  /** Instance types of one class share one outcome; only the error's copy of the type differs. */
  lemma SameClassSameAmi(region: string, version: string, t1: string, t2: string, imageFamily: string)
    requires Classify(t1) == Classify(t2)
    ensures Resolve(region, version, t1, imageFamily).ami == Resolve(region, version, t2, imageFamily).ami
    ensures Resolve(region, version, t1, imageFamily).err.None? == Resolve(region, version, t2, imageFamily).err.None?
  {
  }

  /** Different classes, or different families, never resolve to the same AMI. */
  lemma DistinctRequestsDistinctAmis(
    region: string, version: string, t1: string, t2: string, f1: string, f2: string)
    requires Resolve(region, version, t1, f1).err.None? && Resolve(region, version, t2, f2).err.None?
    requires Classify(t1) != Classify(t2) || f1 != f2
    ensures Resolve(region, version, t1, f1).ami != Resolve(region, version, t2, f2).ami
  {
    var p1, p2 := ParseFamily(f1), ParseFamily(f2);
    LookupInjective(version, p1.value, Classify(t1), region, version, p2.value, Classify(t2), region);
  }

  // ---------------------------------------------------------------- the entries

  /** The standard instance type the entries use. */
  lemma StandardEntryType(instanceType: string)
    requires instanceType == "t2.medium"
    ensures Classify(instanceType) == Standard
  {
    assert "t2" + "." + "medium" == instanceType;
    ClassifyByFamily("t2", "medium");
  }

  /** The GPU instance types the entries use, one per GPU family. */
  lemma GpuEntryType(instanceType: string)
    requires instanceType in {"p2.xlarge", "p3.2xlarge", "g3.4xlarge", "g4dn.xlarge"}
    ensures Classify(instanceType) == Gpu
  {
    if instanceType == "p2.xlarge" {
      assert "p2" + "." + "xlarge" == instanceType;
      ClassifyByFamily("p2", "xlarge");
    } else if instanceType == "p3.2xlarge" {
      assert "p3" + "." + "2xlarge" == instanceType;
      ClassifyByFamily("p3", "2xlarge");
    } else if instanceType == "g3.4xlarge" {
      assert "g3" + "." + "4xlarge" == instanceType;
      ClassifyByFamily("g3", "4xlarge");
    } else {
      assert "g4dn" + "." + "xlarge" == instanceType;
      ClassifyByFamily("g4dn", "xlarge");
    }
  }

  /** Entry "with non-gpu instance and us-west-2". */
  lemma NonGpuUsWest2()
    ensures CasePasses(Entries[0])
  {
    var c := Entries[0];
    assert c.instanceType == "t2.medium";
    StandardEntryType(c.instanceType);
    StandardAmazonLinux2(c.instanceType);
  }

  /** Entry "with non-gpu instance and us-east-1". */
  lemma NonGpuUsEast1()
    ensures CasePasses(Entries[1])
  {
    var c := Entries[1];
    assert c.instanceType == "t2.medium";
    StandardEntryType(c.instanceType);
    StandardAmazonLinux2(c.instanceType);
  }

  /** Entry "with non-gpu instance and eu-west-1". */
  lemma NonGpuEuWest1()
    ensures CasePasses(Entries[2])
  {
    var c := Entries[2];
    assert c.instanceType == "t2.medium";
    StandardEntryType(c.instanceType);
    StandardAmazonLinux2(c.instanceType);
  }

  /** Entry "with non-gpu instance and non-eks enabled region". */
  lemma NonGpuNonEksRegion()
    ensures CasePasses(Entries[3])
  {
    var c := Entries[3];
    assert c.region == "sa-east-1";
    UnknownRegionFails(c.region, c.version, c.instanceType, c.imageFamily);
  }

  /** Entry "with gpu (p2) instance and us-west-2". */
  lemma GpuP2UsWest2()
    ensures CasePasses(Entries[4])
  {
    var c := Entries[4];
    assert c.instanceType == "p2.xlarge";
    GpuEntryType(c.instanceType);
    GpuAmazonLinux2(c.instanceType);
  }

  /** Entry "with gpu (p3) instance and us-east-1". */
  lemma GpuP3UsEast1()
    ensures CasePasses(Entries[5])
  {
    var c := Entries[5];
    assert c.instanceType == "p3.2xlarge";
    GpuEntryType(c.instanceType);
    GpuAmazonLinux2(c.instanceType);
  }

  /** Entry "with gpu (p2) instance and eu-west-1". */
  lemma GpuP2EuWest1()
    ensures CasePasses(Entries[6])
  {
    var c := Entries[6];
    assert c.instanceType == "p2.xlarge";
    GpuEntryType(c.instanceType);
    GpuAmazonLinux2(c.instanceType);
  }

  /** Entry "with gpu (g3) instance and eu-west-1". */
  lemma GpuG3EuWest1()
    ensures CasePasses(Entries[7])
  {
    var c := Entries[7];
    assert c.instanceType == "g3.4xlarge";
    GpuEntryType(c.instanceType);
    GpuAmazonLinux2(c.instanceType);
  }

  /** Entry "with gpu (g4) instance and eu-west-1". */
  lemma GpuG4EuWest1()
    ensures CasePasses(Entries[8])
  {
    var c := Entries[8];
    assert c.instanceType == "g4dn.xlarge";
    GpuEntryType(c.instanceType);
    GpuAmazonLinux2(c.instanceType);
  }

  /** Entry "with gpu (p3) instance and non-existent region". */
  lemma GpuP3NonExistentRegion()
    ensures CasePasses(Entries[9])
  {
    var c := Entries[9];
    assert c.region == "eu-east-1";
    UnknownRegionFails(c.region, c.version, c.instanceType, c.imageFamily);
  }

  /** Entry "with non-gpu instance, us-west-2 and Ubuntu image". */
  lemma NonGpuUsWest2Ubuntu()
    ensures CasePasses(Entries[10])
  {
    var c := Entries[10];
    assert c.instanceType == "t2.medium";
    StandardEntryType(c.instanceType);
    StandardUbuntu1804(c.instanceType);
  }

  /** Entry "with non-gpu instance, us-east-1 and Ubuntu image". */
  lemma NonGpuUsEast1Ubuntu()
    ensures CasePasses(Entries[11])
  {
    var c := Entries[11];
    assert c.instanceType == "t2.medium";
    StandardEntryType(c.instanceType);
    StandardUbuntu1804(c.instanceType);
  }

  /** Entry "with non-gpu instance, eu-west-1 and Ubuntu image". */
  lemma NonGpuEuWest1Ubuntu()
    ensures CasePasses(Entries[12])
  {
    var c := Entries[12];
    assert c.instanceType == "t2.medium";
    StandardEntryType(c.instanceType);
    StandardUbuntu1804(c.instanceType);
  }

  /** Entry "with non-gpu instance, non-eks enabled region and Ubuntu image". */
  lemma NonGpuNonEksRegionUbuntu()
    ensures CasePasses(Entries[13])
  {
    var c := Entries[13];
    assert c.region == "sa-east-1";
    UnknownRegionFails(c.region, c.version, c.instanceType, c.imageFamily);
  }

  /** Entry "with gpu instance, any region and Ubuntu image". */
  lemma GpuAnyRegionUbuntu()
    ensures CasePasses(Entries[14])
  {
    var c := Entries[14];
    assert c.instanceType == "p2.xlarge";
    GpuEntryType(c.instanceType);
    GpuUbuntu1804Fails(c.region, c.version, c.instanceType);
  }

  /** Every entry of the table passes its check. */
  lemma AllEntriesPass()
    ensures forall i :: 0 <= i < |Entries| ==> CasePasses(Entries[i])
  {
    forall i | 0 <= i < |Entries|
      ensures CasePasses(Entries[i])
    {
      if i == 0 {
        NonGpuUsWest2();
      } else if i == 1 {
        NonGpuUsEast1();
      } else if i == 2 {
        NonGpuEuWest1();
      } else if i == 3 {
        NonGpuNonEksRegion();
      } else if i == 4 {
        GpuP2UsWest2();
      } else if i == 5 {
        GpuP3UsEast1();
      } else if i == 6 {
        GpuP2EuWest1();
      } else if i == 7 {
        GpuG3EuWest1();
      } else if i == 8 {
        GpuG4EuWest1();
      } else if i == 9 {
        GpuP3NonExistentRegion();
      } else if i == 10 {
        NonGpuUsWest2Ubuntu();
      } else if i == 11 {
        NonGpuUsEast1Ubuntu();
      } else if i == 12 {
        NonGpuEuWest1Ubuntu();
      } else if i == 13 {
        NonGpuNonEksRegionUbuntu();
      } else if i == 14 {
        GpuAnyRegionUbuntu();
      }
    }
  }

  // ---------------------------------------------------------------- the table is what the entries exercise

  /** Entry `c` asks for the same region, version and family as the request, with an instance type of the same class. */
  predicate Covers(c: ResolveCase, region: string, version: string, instanceType: string, imageFamily: string) {
    && c.region == region && c.version == version && c.imageFamily == imageFamily
    && Classify(c.instanceType) == Classify(instanceType)
  }

  /** The requests the resolver serves: version 1.12, a known region, and not GPU with Ubuntu1804. */
  lemma SuccessShape(region: string, version: string, instanceType: string, imageFamily: string)
    requires Resolve(region, version, instanceType, imageFamily).err.None?
    ensures version == "1.12" && KnownRegion(region)
    ensures imageFamily == "AmazonLinux2" || (imageFamily == "Ubuntu1804" && Classify(instanceType) == Standard)
  {
  }

  /** The classes of the instance types of the entries that expect success. */
  lemma SuccessEntryClasses()
    ensures forall i | i in {0, 1, 2, 10, 11, 12} :: Classify(Entries[i].instanceType) == Standard
    ensures forall i | i in {4, 5, 6} :: Classify(Entries[i].instanceType) == Gpu
  {
    assert forall i | i in {0, 1, 2, 10, 11, 12} :: Entries[i].instanceType == "t2.medium";
    assert Entries[4].instanceType == Entries[6].instanceType == "p2.xlarge";
    assert Entries[5].instanceType == "p3.2xlarge";
    StandardEntryType("t2.medium");
    GpuEntryType("p2.xlarge");
    GpuEntryType("p3.2xlarge");
  }

  /** Every request of that shape is covered by an entry that expects success. */
  lemma SuccessHasEntry(region: string, version: string, instanceType: string, imageFamily: string)
    requires version == "1.12" && KnownRegion(region)
    requires imageFamily == "AmazonLinux2" || (imageFamily == "Ubuntu1804" && Classify(instanceType) == Standard)
    ensures exists i :: 0 <= i < |Entries| && !Entries[i].expectError
                        && Covers(Entries[i], region, version, instanceType, imageFamily)
  {
    SuccessEntryClasses();
    var i: nat :=
      if imageFamily == "AmazonLinux2" && Classify(instanceType) == Standard then
        (if region == "us-west-2" then 0 else if region == "us-east-1" then 1 else 2)
      else if imageFamily == "AmazonLinux2" then
        (if region == "us-west-2" then 4 else if region == "us-east-1" then 5 else 6)
      else (if region == "us-west-2" then 10 else if region == "us-east-1" then 11 else 12);
    assert Covers(Entries[i], region, version, instanceType, imageFamily);
  }

  /**
   * The resolver agrees with the entries on every request: it succeeds exactly when an entry
   * expecting success covers the request, and its AMI is the one every covering entry expects.
   */
  lemma ResolveAgreesWithEntries(region: string, version: string, instanceType: string, imageFamily: string)
    ensures Resolve(region, version, instanceType, imageFamily).err.None? <==>
      exists i :: 0 <= i < |Entries| && !Entries[i].expectError
                  && Covers(Entries[i], region, version, instanceType, imageFamily)
    ensures forall i :: 0 <= i < |Entries| && Covers(Entries[i], region, version, instanceType, imageFamily) ==>
      Resolve(region, version, instanceType, imageFamily).ami == Entries[i].expectedAmi
  {
    var r := Resolve(region, version, instanceType, imageFamily);
    forall i | 0 <= i < |Entries| && Covers(Entries[i], region, version, instanceType, imageFamily)
      ensures r.ami == Entries[i].expectedAmi && (r.err.None? <==> !Entries[i].expectError)
    {
      AllEntriesPass();
      var c := Entries[i];
      assert CasePasses(c);
      SameClassSameAmi(region, version, c.instanceType, instanceType, imageFamily);
    }
    if r.err.None? {
      SuccessShape(region, version, instanceType, imageFamily);
      SuccessHasEntry(region, version, instanceType, imageFamily);
    }
  }
}
