# Static AMI resolution (eksctl `pkg/ami`), modelled in Dafny

`ami.Resolve(region, version, instanceType, imageFamily)` picks the machine image (AMI) a
cluster node boots from. It sorts the instance type into a capability class (GPU or standard) by
its family, the part before the first `.`. It recognises the image-family name
(`AmazonLinux2`, `Ubuntu1804`) and looks the combination up in a constant table keyed by version,
family, class and region. It returns either the AMI id with no error, or an empty id together
with an `ErrFailedResolution` that carries the four inputs exactly as supplied.

The resolver's implementation file is not part of this model; its behaviour is the one the
table-driven test `pkg/ami/static_resolver_test.go` fixes. So the table holds exactly the nine
(version, family, class, region) combinations the test expects to succeed, and nothing else.
The GPU families are the four the test uses: `p2`, `p3`, `g3` and `g4dn`. Reading the class off
the exact family (the part before the first `.`, compared whole) is this model's choice. It agrees
with every entry of the test, but so would a rule that matches on a leading prefix such as `g4`
(the test's entry title calls `g4dn.xlarge` a "g4" instance). The two rules part ways on types
the test does not use, such as `g4ad.xlarge` or `p3dn.24xlarge`, which the model classifies as
standard. The test has no instance type without a `.`; the model treats such a string as its own
family, and any family outside the four as standard, so the classifier never fails.

Files:

- `wrappers.dfy` (module `Wrappers`): the `Option` type, used for table misses and for Go's
  nil-or-not `error`.
- `ami.dfy` (module `Ami`): the data types, `NewErrFailedResolution`, the classifier
  (`FamilyPrefix`, `Classify`), the family names (`FamilyName`, `ParseFamily`), the table
  (`ImageTable`, `Lookup`) and `Resolve`.
- `static_resolver_cases.dfy` (module `StaticResolverCases`): the test's `ResolveCase` entries as a
  constant sequence, and the check each entry runs (`CasePasses`). It also holds the lemmas that
  state the entries' properties for all inputs, one lemma per entry, and the lemma that the
  resolver agrees with the entries on every request.

`Resolve` is a Dafny function over constant data, so repeated calls with equal inputs give equal
results by construction. Go's `(string, error)` pair is the datatype `Resolution(ami, err)`. The
`ErrFailedResolution` pointer is a datatype value, so the test's `MatchError` against a freshly
built `NewErrFailedResolution` becomes plain equality, which holds exactly when all four fields
are equal. The `reflect` check that the error's type is named `ErrFailedResolution` becomes the
error being a value of that datatype.

## Model

| member | source | states |
|---|---|---|
| `Ami.NewErrFailedResolution` | pkg/ami/static_resolver_test.go:28 | the error value carries region, version, instance type and image family exactly as given, in that order |
| `Ami.FamilyPrefix` | pkg/ami/static_resolver_test.go:67-106 | the result is the longest prefix of the instance type without a `.`: it is a prefix, holds no `.`, and is followed by `.` unless it is the whole string |
| `Ami.ClassifyByFamily` | pkg/ami/static_resolver_test.go:67-106 | an instance type `<family>.<size>` is classified by its family alone: GPU exactly when the family is `p2`, `p3`, `g3` or `g4dn` |
| `Ami.FamilyPrefixIsFamily` | pkg/ami/static_resolver_test.go:67-106 | the prefix is the one family an instance type has: a string is its family (the whole type, or the part before a first `.`) exactly when it equals the prefix |
| `Ami.Classify` | pkg/ami/static_resolver_test.go:35-154 | an instance type is GPU exactly when its family (the whole type, or the part before its first `.`) is `p2`, `p3`, `g3` or `g4dn`; every other type, including an unknown or malformed one, is standard |
| `Ami.ClassifyWithoutSeparator` | pkg/ami/static_resolver_test.go:16 | the model's totality choice, not behaviour the test fixes (no entry has a type without `.`): such a type is its own family and is classified by it |
| `Ami.ParseFamily` | pkg/ami/static_resolver_test.go:35-154 | a name is recognised exactly when it is `AmazonLinux2` or `Ubuntu1804`, and the family recognised has that name |
| `Ami.ParseFamilyName` | pkg/ami/static_resolver_test.go:35-154 | every known family is recognised under its own name |
| `Ami.Lookup` | pkg/ami/static_resolver_test.go:35-138 | every id the table yields is an AMI id: `ami-` followed by a non-empty token |
| `Ami.LookupInjective` | pkg/ami/static_resolver_test.go:35-138 | no AMI id is stored under two different (version, family, class, region) keys |
| `Ami.Resolve` | pkg/ami/static_resolver_test.go:24-33 | the id is empty exactly when there is an error; on success the id is an AMI id; on failure the error equals `NewErrFailedResolution` of the four inputs verbatim |
| `StaticResolverCases.CasePasses` | pkg/ami/static_resolver_test.go:23-34 | the per-entry check: the AMI equals the expected one, and the error is `NewErrFailedResolution` of the entry's inputs when an error is expected and absent otherwise; a passing entry expects an empty AMI exactly when it expects an error |
| `StaticResolverCases.StandardAmazonLinux2` | pkg/ami/static_resolver_test.go:35-58 | every standard instance type with AmazonLinux2 at 1.12 resolves, with no error, to `ami-0315dd35bf204311d` in us-west-2, `ami-0259ce67309f76e0b` in us-east-1 and `ami-0a6be9528ebb8999d` in eu-west-1 |
| `StaticResolverCases.GpuAmazonLinux2` | pkg/ami/static_resolver_test.go:67-106 | every GPU instance type with AmazonLinux2 at 1.12 resolves, with no error, to `ami-04f40a6dd1cd12b3c` in us-west-2, `ami-0585963de7ab8b964` in us-east-1 and `ami-049574de1981b69dc` in eu-west-1 |
| `StaticResolverCases.StandardUbuntu1804` | pkg/ami/static_resolver_test.go:115-138 | every standard instance type with Ubuntu1804 at 1.12 resolves, with no error, to `ami-0551b6dc0b4079e1d` in us-west-2, `ami-058c6e6f18b1cca2c` in us-east-1 and `ami-0ac97cadeed862a54` in eu-west-1 |
| `StaticResolverCases.UnknownRegionFails` | pkg/ami/static_resolver_test.go:59-146 | a region other than us-west-2, us-east-1 and eu-west-1 gives an empty id and the failure built from the inputs, for every version, instance type and family |
| `StaticResolverCases.GpuUbuntu1804Fails` | pkg/ami/static_resolver_test.go:147-154 | a GPU instance type with Ubuntu1804 gives an empty id and the failure built from the inputs, in every region and at every version |
| `StaticResolverCases.UnknownFamilyFails` | pkg/ami/static_resolver_test.go:24-33 | an image-family name other than the two known ones gives an empty id and the failure built from the inputs |
| `StaticResolverCases.GpuNeedsAmazonLinux2` | pkg/ami/static_resolver_test.go:75-154 | in every known region at 1.12 a GPU instance type resolves under AmazonLinux2 and fails under Ubuntu1804 |
| `StaticResolverCases.SameClassSameAmi` | pkg/ami/static_resolver_test.go:83-106 | instance types of one class get the same id and the same success or failure for one region, version and family |
| `StaticResolverCases.DistinctRequestsDistinctAmis` | pkg/ami/static_resolver_test.go:35-138 | two successful requests in one region and version with different classes or different families get different AMI ids |
| `StaticResolverCases.StandardEntryType` | pkg/ami/static_resolver_test.go:38 | `t2.medium` is a standard instance type |
| `StaticResolverCases.GpuEntryType` | pkg/ami/static_resolver_test.go:67-106 | `p2.xlarge`, `p3.2xlarge`, `g3.4xlarge` and `g4dn.xlarge` are GPU instance types |
| `StaticResolverCases.NonGpuUsWest2` | pkg/ami/static_resolver_test.go:35-42 | the entry passes its check: the expected AMI and no error |
| `StaticResolverCases.NonGpuUsEast1` | pkg/ami/static_resolver_test.go:43-50 | the entry passes its check: the expected AMI and no error |
| `StaticResolverCases.NonGpuEuWest1` | pkg/ami/static_resolver_test.go:51-58 | the entry passes its check: the expected AMI and no error |
| `StaticResolverCases.NonGpuNonEksRegion` | pkg/ami/static_resolver_test.go:59-66 | the entry passes its check: an empty id and the failure built from its inputs |
| `StaticResolverCases.GpuP2UsWest2` | pkg/ami/static_resolver_test.go:67-74 | the entry passes its check: the expected AMI and no error |
| `StaticResolverCases.GpuP3UsEast1` | pkg/ami/static_resolver_test.go:75-82 | the entry passes its check: the expected AMI and no error |
| `StaticResolverCases.GpuP2EuWest1` | pkg/ami/static_resolver_test.go:83-90 | the entry passes its check: the expected AMI and no error |
| `StaticResolverCases.GpuG3EuWest1` | pkg/ami/static_resolver_test.go:91-98 | the entry passes its check: the expected AMI and no error |
| `StaticResolverCases.GpuG4EuWest1` | pkg/ami/static_resolver_test.go:99-106 | the entry passes its check: the expected AMI and no error |
| `StaticResolverCases.GpuP3NonExistentRegion` | pkg/ami/static_resolver_test.go:107-114 | the entry passes its check: an empty id and the failure built from its inputs |
| `StaticResolverCases.NonGpuUsWest2Ubuntu` | pkg/ami/static_resolver_test.go:115-122 | the entry passes its check: the expected AMI and no error |
| `StaticResolverCases.NonGpuUsEast1Ubuntu` | pkg/ami/static_resolver_test.go:123-130 | the entry passes its check: the expected AMI and no error |
| `StaticResolverCases.NonGpuEuWest1Ubuntu` | pkg/ami/static_resolver_test.go:131-138 | the entry passes its check: the expected AMI and no error |
| `StaticResolverCases.NonGpuNonEksRegionUbuntu` | pkg/ami/static_resolver_test.go:139-146 | the entry passes its check: an empty id and the failure built from its inputs |
| `StaticResolverCases.GpuAnyRegionUbuntu` | pkg/ami/static_resolver_test.go:147-154 | the entry passes its check: an empty id and the failure built from its inputs |
| `StaticResolverCases.AllEntriesPass` | pkg/ami/static_resolver_test.go:22-155 | every entry of the table passes the check of lines 24-33 |
| `StaticResolverCases.SuccessShape` | pkg/ami/static_resolver_test.go:35-154 | a request succeeds only at version 1.12, in a known region, and not for a GPU instance type with Ubuntu1804 |
| `StaticResolverCases.SuccessHasEntry` | pkg/ami/static_resolver_test.go:35-138 | every request of that shape is covered by an entry that expects success: same region, version and family, and an instance type of the same class |
| `StaticResolverCases.ResolveAgreesWithEntries` | pkg/ami/static_resolver_test.go:22-155 | for every request: it succeeds exactly when an entry expecting success covers it, and its id equals the expected AMI of every entry that covers it; so the table holds exactly the combinations the entries exercise |

## Left out

- The resolver's implementation file is not part of this model. The table, the GPU family set and the classifier follow what the test fixes, and no AMI id, region, version or GPU prefix outside the test's entries is modelled.
- The error message text of `ErrFailedResolution`: the message template belongs to the resolver's implementation, which is not modelled; the test compares error values, never their text, so only the error's fields and its structural equality are modelled.
- Unknown image-family names: the model returns the same `ErrFailedResolution` for them (`UnknownFamilyFails`); the test has no entry with an unrecognised family name, so a distinct error kind there is not modelled.
- A chain of several resolvers tried in order: the test's title speaks of "default resolvers", but the test checks only `Resolve`'s results, so the order of the default resolvers is not fixed by it and only the static table is modelled.
- Live or dynamic AMI lookup, caching and concurrency: the test exercises none of these.
- The Ginkgo/Gomega harness and the `reflect` type-name check: the error's type is the Dafny datatype `ErrFailedResolution`.
- `pkg/ctl/create/iamidentitymapping.go` (the `create iamidentitymapping` command): command wiring, flag parsing, cluster-config loading, credentials and reading and writing the aws-auth ConfigMap over the network. It is I/O plumbing with no algorithm to state.
