# awsweeper resource selection, modelled in Dafny

awsweeper lists the resources of an AWS account and deletes the ones selected
by a YAML filter. This project models the two parts that decide what is listed
and what is selected:

- **The registry** (`resource/supported.go`, module `Registry` in
  `registry.dfy`). `Supported()` is the fixed, ordered table of 29 API
  descriptors. Each descriptor holds a Terraform type, the path of fields that
  leads to the items in the listing response, the field used as deletion id,
  the name of the listing call and the selector. `GetSupported` is the
  first-match lookup by type and fails with `NoAPIDesc` for an unknown type.
  The proofs show that the 29 types are pairwise distinct, that looking up any
  row's type returns that row, and what shape the paths and selectors have.
- **The filter** (`resource/filter.go`, module `ResourceFilter` in
  `filter.dfy`). A `Config` maps a Terraform type to a list of
  `ResourceTypeFilter` entries. Each entry has an optional id pattern,
  optional tag criteria and an optional `Created` window.
  - `MatchId` and `MatchCreated` are functions.
  - `MatchTags`, `Matches`, `Types` and `Validate` are methods with the
    source's loops. Each is proved against an order-free specification:
    `TagsHold`, `Selected`, the key set of the config, and `AllSupported`.
  - The loops over Go maps take keys in an arbitrary order (`:|`). Because
    they are proved against order-free specifications, the result of
    `MatchTags` does not depend on map iteration order. For `Types`, the
    element set and the length do not depend on it either. For `Validate`,
    whether an error is reported does not. The order of `Types`'s result
    does follow the iteration order. So does the choice of which unsupported
    type `Validate` names when there are several.
- `filter_properties.dfy` (module `FilterProperties`) proves properties of the
  decision. `filter_examples.dfy` (module `FilterExamples`) holds the filter
  tests' configuration in the current format, and the test cases that the
  current filter agrees with.

Regular expressions are not modelled. `Regexp` is a parameter: a total
predicate saying which patterns compile and a total predicate saying which
strings a pattern matches. `Regexp.MatchString` reports no match for a pattern
that does not compile, as Go's `regexp.MatchString` does. Times are whole Unix
seconds, which is what the source compares (`resource/filter.go:136,141`).

Some cases in `resource/filter_test.go` were written for an earlier API, and
the current `resource/filter.go` does not agree with them. The model follows
`filter.go`:

- **AND, not OR.** The test cases at `resource/filter_test.go:176-182` expect
  a VPC to be selected when either its id or its tags match. In
  `filter.go:158-163`, one entry selects a resource only when its tag
  criteria, its id pattern and its creation window all hold. A list of
  entries selects a resource when any one entry does. An empty list selects
  everything (`filter.go:154-156`).
- **Every configured tag key is required.** The test cases at
  `resource/filter_test.go:112-117` expect an instance with only one of the
  two configured tag keys to match. In `filter.go:109-122`, every configured
  key must be present with a matching value.
- **Malformed id patterns.** In `matchID` the error check sits inside the
  branch taken only on a match (`filter.go:92-95`), so it never runs. A
  malformed id pattern therefore just fails to match (`MatchId` ensures
  this).
- **Malformed tag patterns.** `matchTags` exits the process on a malformed
  tag pattern only when the resource carries that key and no key visited
  earlier has already failed (`filter.go:110-114`). A malformed pattern on a
  key that the resource lacks just yields false (`filter.go:117-118`).

## Model

| member | source | states |
|---|---|---|
| `Registry.Supported` | resource/supported.go:74-351 | the table has exactly 29 descriptors |
| `Registry.Lookup` | resource/supported.go:356-361 | succeeds iff some row has the type; the result is the first such row and has that type; on failure the error names the type |
| `Registry.GetSupported` | resource/supported.go:355-362 | succeeds iff the type is supported (in the table's type column), with a descriptor from the table whose type is the one asked for; otherwise fails with `NoAPIDesc(type)` |
| `Registry.LookupUniqueRow` | resource/supported.go:356-359 | in any table without repeated types, looking up the type of row i returns row i (first match plus uniqueness) |
| `Registry.TypeRowOfRow` | resource/supported.go:74-351 | row i of the table carries the i-th type of the fixed type column: the types and their order are fixed |
| `Registry.SupportedUniqueTypes` | resource/supported.go:45-48 | each descriptor is identified by its Terraform type: the 29 types are pairwise distinct |
| `Registry.GetSupportedRoundTrip` | resource/supported.go:355-359 | round trip: for every row d of the table, `GetSupported(d.terraformType)` returns d |
| `Registry.NotInTypeColumn` | resource/supported.go:355-361 | a type outside the type column is not supported, and looking it up fails with `NoAPIDesc` naming it |
| `Registry.DescriptorShape` | resource/supported.go:76-350 | every descriptor has a non-empty response path and a non-empty deletion id; the path has one segment, except aws_instance's, which is `["Reservations", "Instances"]` |
| `Registry.SelectorAssignment` | resource/supported.go:76-350 | aws_efs_file_system, aws_iam_policy, aws_iam_user and aws_kms_key use their own selectors; every other type uses the generic one |
| `ResourceFilter.ResourceTypeFilter.MatchId` | resource/filter.go:87-100 | true without an id pattern; with one, true iff the pattern compiles and matches the id (a malformed pattern never matches) |
| `ResourceFilter.ResourceTypeFilter.MatchTags` | resource/filter.go:104-123 | visiting the configured keys in any order, returns exactly `TagsHold`: every configured key is a tag of the resource and its value matches the key's pattern (true without criteria) |
| `ResourceFilter.ResourceTypeFilter.MatchCreated` | resource/filter.go:125-145 | true without a window; false with a window and no creation time; otherwise true iff the time is strictly after every set `After` and strictly before every set `Before` |
| `ResourceFilter.Filter.Matches` | resource/filter.go:148-164 | searching the entries in list order, returns exactly `Selected`: the type is configured and either has no entries or some entry's tags, id and window all hold |
| `ResourceFilter.Filter.Types` | resource/filter.go:76-84 | the result lists every configured type exactly once and nothing else, and its length is the number of configured types |
| `ResourceFilter.Filter.Validate` | resource/filter.go:66-73 | reports an error iff some configured type is not supported, and the error names a configured, unsupported type |
| `FilterProperties.UnconfiguredTypeNeverSelected` | resource/filter.go:149-152 | a resource whose type is not a key of the config is never selected |
| `FilterProperties.EmptyEntryListSelectsAll` | resource/filter.go:154-156 | a type with an empty entry list selects every resource of that type, whatever its id, tags or creation time |
| `FilterProperties.SelectedIffSomeEntry` | resource/filter.go:158-163 | with a non-empty entry list: selected iff some single entry has its tag criteria, id pattern and window all hold |
| `FilterProperties.SelectedIgnoresEntryOrder` | resource/filter.go:158-163 | permuting the entry lists of a config changes no decision |
| `FilterProperties.SelectAllEntrySelects` | resource/filter.go:87-145 | an entry with no id pattern, no or empty tag criteria and no window selects every resource |
| `FilterProperties.ListWithSelectAllEntry` | resource/filter.go:158-163 | a list that contains such an entry selects every resource of its type, as an empty list does |
| `FilterProperties.AppendEntryKeepsSelection` | resource/filter.go:158-163 | adding an entry to a non-empty list keeps every resource the list selected |
| `FilterProperties.FirstEntryCanNarrowSelection` | resource/filter.go:154-163 | adding a first entry to an empty list can narrow the selection: the empty list selects a resource that a one-entry list with a non-matching id pattern rejects |
| `FilterProperties.NoTagCriteriaHold` | resource/filter.go:104-123 | absent or empty tag criteria hold for any resource tags |
| `FilterProperties.UntaggedFailsTagCriteria` | resource/filter.go:109-119 | a resource without tags fails any non-empty tag criteria |
| `FilterProperties.TagsHoldReadsConfiguredKeysOnly` | resource/filter.go:109-122 | resource tags that agree on the configured keys get the same answer: tags on other keys are irrelevant |
| `FilterProperties.ExtraTagsKeepMatch` | resource/filter.go:109-122 | adding tags to a resource never makes it fail tag criteria it met |
| `FilterProperties.MissingConfiguredKeyFails` | resource/filter.go:109-119 | keys compare exactly: a configured key missing from the resource's tags fails the criteria |
| `FilterProperties.CreatedBoundsAreStrict` | resource/filter.go:134-144 | a creation time equal to `After` or to `Before` fails; one strictly between them passes |
| `FilterProperties.EmptyWindowNeedsCreationTime` | resource/filter.go:125-145 | a window with neither bound set fails a resource without a creation time and passes any resource with one |
| `FilterExamples.TestConfigDecisions` | resource/filter_test.go:153-186 | in the test configuration, given the engine's answers for `foo-lala` and `some-id`: an instance `some-id` with tags `{"any":"tag"}` or no tags is not selected; an IAM role `foo-lala` with `{"any":"tag"}` is selected, and IAM roles `some-id` with `{"foo":"bar"}` or no tags are not; a VPC `some-id` with `{"any":"tag"}` is not selected (lines 183-186); a security group `any-id` with `{"any":"tag"}` is selected (lines 194-196). The VPC cases at lines 174-182 are excluded, see below |
| `FilterExamples.TestRoleDecidedById` | resource/filter_test.go:161-172 | in the test configuration, for every id and all tags: an IAM role is selected iff its id matches `^foo.*` |
| `FilterExamples.TestSecurityGroupSelectsAll` | resource/filter_test.go:194-196 | in the test configuration, a security group is selected whatever its id and tags |
| `FilterExamples.TestIdDecisions` | resource/filter_test.go:80-96 | the IAM role's only entry has just the id pattern `^foo.*`, so for any tags an IAM role `foo-lala` is selected and `lala-foo` is not, given the engine's answers for them |
| `FilterExamples.TestTagDecisions` | resource/filter_test.go:119-126 | instance tags `{"foo":"baz"}` and `{"blub":"bla"}` fail the instance entry's tag criteria |
| `FilterExamples.TestConfigIsSupported` | resource/filter_test.go:41-43 | every type of the test configuration is in the registry |
| `FilterExamples.UnsupportedTypeFailsValidation` | resource/filter_test.go:49-58 | a configuration that adds `not_supported_type` to a supported type is not all supported |
| `FilterExamples.TestConfigTypes` | resource/filter_test.go:60-67 | Types of the test configuration has length 4 and contains its security group, IAM role and instance types |
| `FilterExamples.EmptyConfigTypes` | resource/filter_test.go:69-78 | Types of an empty configuration is empty |
| `FilterExamples.ValidateTestConfig` | resource/filter_test.go:41-43 | Validate accepts the test configuration against the registry |
| `FilterExamples.ValidateUnsupportedConfig` | resource/filter_test.go:49-58 | Validate rejects the configuration with `not_supported_type` and names exactly that type |

## Left out

- `read` and `NewFilter`, together with `AppFs`, are file I/O. They read the file through afero, unmarshal the YAML strictly, and exit the process through `logrus.Fatalf` on failure. The model starts from a loaded `Config`.
- The regular-expression engine is the `Regexp` parameter: total predicates for "compiles" and "matches", with no regex semantics.
- `ResourceFilter.ResourceTypeFilter.MatchTags` requires every tag pattern of the entry to compile. The source exits the process (`log.Fatal`) on a malformed pattern only when the resource carries that pattern's key and no key visited earlier has already failed. Otherwise the source just returns false. Whether the exit is reached depends on map iteration order, so the model excludes malformed tag patterns instead of modelling the exit.
- `ResourceFilter.Filter.Matches` requires the tag patterns of every entry of the resource's type to compile, for the same reason. This is slightly more than needed, because the source stops at the first selecting entry.
- `time.Time` is not modelled. A time is a whole number of Unix seconds, which is what the source compares.
- The unused `resType` parameter of `matchID`, `matchTags` and `matchCreated` is dropped.
- `Resource` in resource/supported.go has no creation time, but `matches` reads `r.Created`. The model's `Resource` carries an optional creation time.
- Left out of the descriptors:
  - the `AWSClient` struct;
  - the SDK `Describe*`/`List*` callables, which are kept only by name;
  - the SDK input structs, such as the instance-state filter of aws_instance and the owner-id filters of aws_ebs_snapshot and aws_ami.
  
  These are foreign network calls and SDK values.
- `accountID` is a network call to STS (`GetCallerIdentity`) that exits the process on error (`resource/supported.go:366-372`).
- `Registry.GetSupported` and `Registry.Supported` omit the two `accountID` calls that building the table makes, for the owner-id filters of aws_ebs_snapshot and aws_ami (`resource/supported.go:318,343`). `getSupported` builds the table on every lookup (`resource/supported.go:356`), so in the source every lookup makes both STS calls and may exit the process. The model's lookup always returns.
- `TerraformResourceType` is modelled as a string (`ResourceFilter.TerraformResourceType`). `SupportedResourceType` is not part of this model: `Validate` takes the supported-type test as its `isSupported` parameter instead. `Registry.IsSupportedType`, membership in the table's type column, is the instance used in the examples.
- The bodies of the selector functions (`filterGeneric`, `filterEfsFileSystem`, `filterIamPolicy`, `filterIamUser`, `filterKmsKeys`) are not part of this model. The walk along the response path into the listing response is not modelled either. A descriptor records only which selector it uses.
- `Supported` takes the client in the source, and its contents depend on the client beyond the callables: the owner-id filters hold the account id returned by STS. The model's `Supported` has no inputs, because it keeps only the parts of each descriptor that do not depend on the client. `Registry.TypeRowOfRow` fixes the order of its types.
- Some cases in resource/filter_test.go are written against an earlier API: several id patterns per entry, id OR tags, and errors signalling absent criteria. These are the cases at lines 98-104, 106-117, 137-141, 149-152 and 174-182, and they are not modelled. The rest of the test configuration is rewritten in the current format, with one id pattern per entry.
- There is no concurrency in these files.
