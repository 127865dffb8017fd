# A verified model of the Auto Scaling group controller

The controller keeps an AWS Auto Scaling group equal to a Kubernetes resource. This project models its reconciliation
kernel in Dafny and proves what each step keeps and what whole runs lead to:

- **Spec and wire** (`Api`, `Wire`, `Codec`, `GroupShapes`, `WireFields`, `Builders`, `Reading`): the request builders with
  their narrowing to 32 bits and their early returns inside loops, the describe reader with its nested loops, and which
  field of the wire carries which field of the spec.
- **Comparison** (`ResourceDelta`, `DeltaPaths`, `Comparison`): the report of differing paths as a function, the long
  sequence of conditional additions to one report object that refines it, and which path stands for which field.
- **Round trips** (`RoundTrips`): what a create brings back through an echoing server, and what an update leaves to be
  reported with a server that replaces every field it is sent.
- **Tags** (`TagLists`, `TagPipeline`, `TagSync`): lists and maps of tags under every map iteration order, the pipelines
  over them, and the add-then-remove protocol over runs of failing attempts.
- **Update and passes** (`Service`, `Reconcile`, `Passes`, `PassRuns`): the update step against a service whose calls may
  fail after doing part of their work, whole passes of read, compare and update, and runs of passes.
- **References** (`References`): in-place resolution that may stop half way, and the clearing that undoes it.
- **Conditions** (`Resource`, `Conditions`): the condition list, reached and written through pointers, over all runs.
- **Manager cache** (`ManagerCache`): the lookup and insertion under a read-write lock, as interleaved steps.
- **Deep copy** (`SpecValues`, `DeepCopy`): a spec as a graph of objects on the heap, with every field of every struct, and
  the generated copies of it.

`dafny verify dfyconfig.toml` checks everything.

Where a promise does not hold without more, the model keeps the code as it is and states exactly when it holds:

- `Conditions.TerminalIffClassified`: an error that is not terminal comes back as the terminal one exactly when an
  earlier Terminal condition was left True (`LeftoverTerminalMisleads` gives the list).
- `ManagerCache.OneManagerPerKey`: the comment in manager_factory.go (lines 58-60) says that the key helps to avoid
  several managers for one account, region and role. The key is not looked up again under the write lock, so two calls
  can build one each (`TwoManagersForOneKey`); they do exactly when both miss before either inserts.
- `References.ClearUndoesResolution`: clearing undoes resolution exactly for specs that pass validation. The comment
  above `ResolveReferences` (references.go:76-82) speaks of a copy of the resource; the code changes the resource it is
  given, and it resolves even when validation failed.
- `RoundTrips.CreateRoundTrip`: a create comes back without a difference exactly when every field survives; an
  enumeration set to "" does not (`EmptyStrategyIsReported`), and a list with a nil slot only if the library comparison
  takes nil and "" as equal. If it does not, the specs that come back are exactly the tidy ones (`TidySpecsRoundTrip`).
- `ManagerCache.SlashesCollide`: the cache key tells callers apart exactly as long as account and region hold no slash.
- `TagSync.AWSTagsAreSafe`: the comment above `syncAWSTags` (tags.go:94-97) says that mirroring keeps the controller from
  modifying AWS tags; one is still asked for exactly when the desired spec has one that the group lacks.
- `TagPipeline.FilterUndoesEnsureAndMirror`: filtering gives the user's list back exactly when it held user tags only and
  every default tag is one that is filtered out or was there anyway.

## What is assumed of code outside the repository

- `HasNilDifference` means that exactly one side is nil. `equality.Semantic` is structural equality that takes nil and
  empty slices as equal. `SliceStringPEqual` stays a parameter; reflexivity, symmetry or telling nil slots from ""
  are assumed of it only where a lemma says so.
- `GetTagsDifference` compares pairs, so a changed value is in both results (pkg/tags/tags.go:57-61 relies on it).
  `acktags.Merge` lets existing tags win. Path prefixes are component-wise.
- The service stores one group and one tag map. A successful call does what it says; a failing tag call may have reached
  any of its keys, and a failing update may have been applied. The echo server stores what a create sends; the replacing
  server replaces every field an update carries, whole, and never the name. It may list tags in any order.
- The reconciler's order of calls is read, compare, update, and every reconciliation starts from the same custom resource.
- The deep copy of a reference is in the runtime library and taken to have the generated form.
- A range variable is fresh in each iteration (Go 1.25, go.mod:3); the tag lists rely on it.

## Model

| member | source | states |
|---|---|---|
| Basics.TruncateIsExact | pkg/resource/auto_scaling_group/sdk.go:808-811 | the conversion to int32 keeps a value exactly when it lies in the range that the builders test for |
| Codec.EnumRoundTrip | pkg/resource/auto_scaling_group/sdk.go:102-104 | an enumeration field survives encoding and decoding if and only if it is not a pointer to the empty string |
| Codec.NarrowRoundTrip | pkg/resource/auto_scaling_group/sdk.go:806-813 | a number survives narrowing and widening if and only if it fits 32 bits (nil survives) |
| Codec.StringsRoundTrip | pkg/resource/auto_scaling_group/sdk.go:925-927 | `aws.ToStringSlice` then `aws.StringSlice`: nil-ness and length are kept, and the list comes back if and only if it has no nil slot |
| Codec.DistributionRoundTrip | pkg/resource/auto_scaling_group/sdk.go:954-990 | an instances distribution whose three numbers fit comes back unchanged |
| Codec.RequirementsRoundTrip | pkg/resource/auto_scaling_group/sdk.go:1010-1278 | a requirements block comes back (up to nil and empty lists) if and only if its three enumerations are not "" and the two instance type lists have no nil slot |
| Codec.OverrideRoundTrip | pkg/resource/auto_scaling_group/sdk.go:1005-1296 | the same for one override with everything below it |
| Codec.OverridesRoundTrip | pkg/resource/auto_scaling_group/sdk.go:1003-1298 | the same for the whole override list, element by element and in order |
| GroupShapes.OverridesError | pkg/resource/auto_scaling_group/sdk.go:1003-1298 | the override loop has no complaint if and only if every number of every override fits |
| GroupShapes.FirstOverrideComplains | pkg/resource/auto_scaling_group/sdk.go:1003-1298 | the complaint is that of the first override in list order that has one |
| GroupShapes.CreateError | pkg/resource/auto_scaling_group/sdk.go:806-951 | the create builder has a complaint if and only if some number, hooks included, does not fit; which one comes first is stated by WireFields.FirstMisfit |
| GroupShapes.UpdateError | pkg/resource/auto_scaling_group/sdk.go:1457-1562 | the update builder has no complaint if and only if every number but the hooks' fits |
| GroupShapes.FoundSplitsSpec | pkg/resource/auto_scaling_group/sdk.go:91-684 | the read splits the spec: instance id, references, hooks and the zonal shift flag are the input's, and two inputs that agree on those read the same group as the same spec |
| WireFields.NumbersAreSentAsTheyAre | pkg/resource/auto_scaling_group/sdk.go:806-813 | a number fits from -2147483648 to 2147483647; it is sent and read as the integer it is |
| WireFields.EnumsAreSentAsTheyAre | pkg/resource/auto_scaling_group/sdk.go:766-769 | an enumeration is sent as its text, a nil pointer as the empty text, and read back the other way round |
| WireFields.StringsAreSentAsTheyAre | pkg/resource/auto_scaling_group/sdk.go:925-927 | a list of strings keeps nil, length and order; a nil slot is sent as the empty text |
| WireFields.ZonesOnTheWire | pkg/resource/auto_scaling_group/sdk.go:766-772 | the zone distribution: present on both sides or on none, with its strategy |
| WireFields.ImpairmentOnTheWire | pkg/resource/auto_scaling_group/sdk.go:773-782 | the impairment policy: its behaviour and its flag, each in its own field |
| WireFields.ReservationOnTheWire | pkg/resource/auto_scaling_group/sdk.go:789-805 | the reservation: its preference and the two lists below its target, each in its own field |
| WireFields.LifecycleOnTheWire | pkg/resource/auto_scaling_group/sdk.go:847-857 | the lifecycle policy and the trigger below it |
| WireFields.MaintenanceOnTheWire | pkg/resource/auto_scaling_group/sdk.go:858-877 | the maintenance policy: maximum and minimum as they are |
| WireFields.RangeOnTheWire | pkg/resource/auto_scaling_group/sdk.go:1012-1031 | a range: maximum and minimum as they are |
| WireFields.DistributionOnTheWire | pkg/resource/auto_scaling_group/sdk.go:954-990 | the instances distribution: six fields, each in its own |
| WireFields.FactorsOnTheWire | pkg/resource/auto_scaling_group/sdk.go:1105-1125 | the performance factors: three levels down to one reference per slot, in order |
| WireFields.RequirementsOnTheWire | pkg/resource/auto_scaling_group/sdk.go:1010-1278 | the requirements block: 25 fields, each in its own |
| WireFields.OverridesOnTheWire | pkg/resource/auto_scaling_group/sdk.go:1003-1298 | the overrides: as many, in order, each with its five fields |
| WireFields.MixedOnTheWire | pkg/resource/auto_scaling_group/sdk.go:952-1301 | the mixed-instances policy: its two parts, and the two below the launch template |
| WireFields.HooksOnTheWire | pkg/resource/auto_scaling_group/sdk.go:891-924 | the hooks: as many, in order, each with its six texts and its timeout in their own fields |
| WireFields.TrafficOnTheWire | pkg/resource/auto_scaling_group/sdk.go:1335-1348 | the traffic sources: as many, in order, each as it is |
| WireFields.SettingsOnTheWire | pkg/resource/auto_scaling_group/sdk.go:1407-1934 | the 25 fields that both payloads share, each against the spec field of its name |
| WireFields.MisfitsBelow | pkg/resource/auto_scaling_group/sdk.go:954-990 | below the settings the first number out of range is named; every maximum and minimum of a range by that name alone |
| WireFields.MisfitOfRequirements | pkg/resource/auto_scaling_group/sdk.go:1010-1278 | in a requirements block the first of nine numbers or ranges that is out of range is named |
| WireFields.FirstMisfit | pkg/resource/auto_scaling_group/sdk.go:806-951 | over a whole spec the number named is the first one out of range in the order of the code; the create builder looks at the hooks half way, the update builder not at all |
| WireFields.FoundFieldByField | pkg/resource/auto_scaling_group/sdk.go:91-684 | the read assigns 29 fields, each from the group's field of its name, and leaves the other six |
| Builders.NarrowField | pkg/resource/auto_scaling_group/sdk.go:806-813 | one narrowing: the value unchanged as an integer, or the error that names the field |
| Builders.BuildRequirements | pkg/resource/auto_scaling_group/sdk.go:1010-1278 | the requirements block with all its lists, or the first number that does not fit |
| Builders.BuildOverrides | pkg/resource/auto_scaling_group/sdk.go:1003-1298 | the loop over overrides with its early return: all of them encoded in order, or the complaint about the first override that has one |
| Builders.FirstErrorStays | pkg/resource/auto_scaling_group/sdk.go:1003-1298 | an early return reports what a scan of the whole list would report first |
| Builders.BuildMixed | pkg/resource/auto_scaling_group/sdk.go:952-1301 | the mixed-instances nest, or its first complaint |
| Builders.BuildHooks | pkg/resource/auto_scaling_group/sdk.go:891-924 | the loop over hooks: all of them in order with exact heartbeat timeouts, or the error |
| Builders.BuildTraffic | pkg/resource/auto_scaling_group/sdk.go:1335-1348 | the loop over traffic sources, in order |
| Builders.BuildTags | pkg/resource/auto_scaling_group/sdk.go:1315-1328 | the loop over tags copies the list as it is |
| Builders.NewCreateRequestPayload | pkg/resource/auto_scaling_group/sdk.go:757-1354 | a payload comes out if and only if every number that is encoded fits 32 bits; each of its fields then is the field of the spec that goes by its name, down to every field of every hook; otherwise the error names the first misfit and there is no payload |
| Builders.NewUpdateRequestPayload | pkg/resource/auto_scaling_group/sdk.go:1407-1934 | the same for the update, which leaves out instance, hooks, tags, load balancers, target groups and traffic sources |
| Reading.ReadStrings | pkg/resource/auto_scaling_group/sdk.go:339-347 | the decoding loop over an enumeration list gives one pointer per element, in order, and keeps nil |
| Reading.ReadRequirements | pkg/resource/auto_scaling_group/sdk.go:325-535 | decoding of a requirements block |
| Reading.ReadOverrides | pkg/resource/auto_scaling_group/sdk.go:318-556 | decoding of the override list, in order |
| Reading.ReadMixed | pkg/resource/auto_scaling_group/sdk.go:279-559 | decoding of the mixed-instances nest |
| Reading.ReadTraffic | pkg/resource/auto_scaling_group/sdk.go:628-643 | decoding of traffic sources, in order |
| Reading.Merge | pkg/resource/auto_scaling_group/sdk.go:91-681 | every spec field the read covers becomes a function of the group alone; the ARN is only ever set; of the status, the group's status and its predicted capacity are replaced |
| Reading.MergeFirst | pkg/resource/auto_scaling_group/sdk.go:85-687 | only the first group of the answer is merged, into a deep copy; an empty answer is told apart |
| Reading.SdkFind | pkg/resource/auto_scaling_group/sdk.go:58-691 | nil name, the code UNKNOWN and an empty answer are NotFound, any other error is passed on; otherwise a new object that holds the first group, with conditions kept and status defaults filled in, and nothing is modified |
| Reading.ReadOne | pkg/resource/auto_scaling_group/manager.go:95-113 | a failed read leaves the desired resource as it was, records the error and returns it, or the terminal error when a condition says so; a successful one mirrors the AWS tags into the resource, returns what was read and records success |
| Reading.Conclude | pkg/resource/auto_scaling_group/manager.go:106-112 | which resource is returned with which conditions and which error, for both endings of a read |
| ResourceDelta.EmptyDelta | pkg/resource/auto_scaling_group/delta.go:34-417 | the report is empty if and only if every single field agrees |
| ResourceDelta.Reported | pkg/resource/auto_scaling_group/delta.go:34-417 | a path is reported if and only if the comparison of its own field reports it |
| ResourceDelta.DeltaDecidesEquivalence | pkg/resource/auto_scaling_group/delta.go:45-414 | sound and complete: nothing is reported if and only if the specs are equal up to nil and empty lists, tag lists read as maps, and the string list comparison |
| ResourceDelta.DeltaIsSymmetric | pkg/resource/auto_scaling_group/delta.go:45-414 | swapping the two resources gives the same report |
| ResourceDelta.DeltaIsPrefixFree | pkg/resource/auto_scaling_group/delta.go:45-414 | no path is reported twice or together with one below it, so a nil difference at a parent suppresses its children |
| ResourceDelta.NoNestedDelta | pkg/resource/auto_scaling_group/delta.go:45-116 | for each struct field, no report if and only if the two values are equal in normal form |
| DeltaPaths.PointerPath | pkg/resource/auto_scaling_group/delta.go:117-165 | each of the twenty plain pointers and references is reported, under its own path, if and only if it differs between the two specs |
| DeltaPaths.ListPath | pkg/resource/auto_scaling_group/delta.go:227-240 | each of the eight lists is reported, under its own path, if and only if its elements differ by the rule of its kind |
| DeltaPaths.StructPath | pkg/resource/auto_scaling_group/delta.go:45-116 | each of the seven struct fields is reported as a whole if and only if one side has it and the other has not |
| DeltaPaths.ZonesPaths | pkg/resource/auto_scaling_group/delta.go:45-55 | the strategy of the zone distribution is reported if and only if both sides have one and they differ |
| DeltaPaths.ImpairmentPaths | pkg/resource/auto_scaling_group/delta.go:56-73 | the same for the two names of the impairment policy |
| DeltaPaths.ReservationPaths | pkg/resource/auto_scaling_group/delta.go:88-116 | the same for the preference, the target and the two lists below it |
| DeltaPaths.LifecyclePaths | pkg/resource/auto_scaling_group/delta.go:166-180 | the same for the triggers and the name below them |
| DeltaPaths.MaintenancePaths | pkg/resource/auto_scaling_group/delta.go:181-198 | the same for the two percentages |
| DeltaPaths.TemplatePaths | pkg/resource/auto_scaling_group/delta.go:209-226 | the same for the name and the version of the launch template |
| DeltaPaths.MixedPaths | pkg/resource/auto_scaling_group/delta.go:262-340 | the two parts of the mixed-instances policy are reported as wholes if and only if one side lacks them |
| DeltaPaths.DistributionPath | pkg/resource/auto_scaling_group/delta.go:265-310 | each of the six names below the instances distribution is reported if and only if it differs |
| DeltaPaths.MixedTemplatePaths | pkg/resource/auto_scaling_group/delta.go:311-340 | the specification below the nest's template, its name, its version and the overrides, each under its own path |
| DeltaPaths.OnlyThesePaths | pkg/resource/auto_scaling_group/delta.go:45-414 | nothing but these paths is ever reported |
| DeltaPaths.OverridesAlike | pkg/resource/auto_scaling_group/delta.go:332-337 | two override lists are alike if and only if they have the same length and each pair of slots is alike |
| DeltaPaths.OverrideAlike | pkg/resource/auto_scaling_group/delta.go:332-337 | two overrides are alike if and only if their five fields are, the requirements up to nil and empty lists |
| DeltaPaths.RequirementsAlike | pkg/resource/auto_scaling_group/delta.go:332-337 | two requirements blocks are alike if and only if they agree on all 25 fields up to nil and empty lists |
| Comparison.Delta.Add | pkg/resource/auto_scaling_group/delta.go:39 | a path is appended to the report and nothing else changes |
| Comparison.CompareScalar | pkg/resource/auto_scaling_group/delta.go:117-123 | nil difference or different values: exactly one path is added if and only if the two pointers stand for different things |
| Comparison.CompareStrings | pkg/resource/auto_scaling_group/delta.go:74-80 | length first, then the list comparison: one path is added if and only if the lists differ |
| Comparison.CompareTags | pkg/resource/auto_scaling_group/delta.go:379-383 | tags are compared as maps |
| Comparison.CompareReservation | pkg/resource/auto_scaling_group/delta.go:88-116 | two levels of nil differences above two string lists |
| Comparison.CompareMixed | pkg/resource/auto_scaling_group/delta.go:262-340 | the mixed-instances nest: nil differences at each level suppress what is below |
| Comparison.ComparePointer | pkg/resource/auto_scaling_group/delta.go:117-165 | a pointer field adds exactly what the field's own comparison reports; DeltaPaths.PointerPath says what that is for each field |
| Comparison.CompareList | pkg/resource/auto_scaling_group/delta.go:227-240 | a list field adds exactly what the field's own comparison reports |
| Comparison.CompareStruct | pkg/resource/auto_scaling_group/delta.go:45-73 | a struct field adds exactly what the field's own comparison reports |
| Comparison.CompareSpecs | pkg/resource/auto_scaling_group/delta.go:45-414 | the 35 comparisons on one report object refine the report as a function, in the order of the code |
| Comparison.NewResourceDelta | pkg/resource/auto_scaling_group/delta.go:34-417 | one nil resource is reported as the whole; two resources give the report of their specs, whose paths DeltaPaths states one by one |
| TagLists.ConvertToOrderedACKTags | pkg/resource/auto_scaling_group/tags.go:36-55 | the map a list stands for, and its keys in order; the map is new |
| TagLists.FromACKTags | pkg/resource/auto_scaling_group/tags.go:61-78 | for every iteration order: ordered keys first, at their first occurrence, then the others; the ordered keys are deleted from the map that was passed in |
| TagLists.FirstOccurrences | pkg/resource/auto_scaling_group/tags.go:64-70 | no key is written twice, and the keys written are those that are in both the order and the map |
| TagLists.FirstOccurrencesInOrder | pkg/resource/auto_scaling_group/tags.go:64-70 | the ordered keys are written in the order in which they first occur |
| TagLists.ListingStandsForMap | pkg/resource/auto_scaling_group/tags.go:36-78 | map to list to map is the identity for every map, every key order (duplicates and absent keys included) and every iteration order; the list names no key twice and puts the ordered keys first |
| TagLists.LastValueWins | pkg/resource/auto_scaling_group/tags.go:40-52 | of several tags with one key the last one gives the value |
| TagLists.ListMapList | pkg/resource/auto_scaling_group/tags.go:36-78 | list to map to list leaves nothing to the iteration order; duplicates keep their first position and their last value |
| TagLists.MapKeys | pkg/resource/auto_scaling_group/tags.go:36-55 | the map's keys are exactly the keys of the list |
| TagLists.IgnoreSystemTags | pkg/resource/auto_scaling_group/tags.go:85-92 | deleting while ranging: exactly the `aws:` keys and the system keys are gone, for every iteration order |
| TagLists.WhatIsIgnored | pkg/resource/auto_scaling_group/tags.go:85-92 | a key is an AWS key if and only if it begins with the four letters of the prefix, and is ignored if it is one or is a system key |
| TagLists.SyncAWSTags | pkg/resource/auto_scaling_group/tags.go:113-119 | exactly the `aws:` entries of the second map are copied into the first |
| TagPipeline.EnsureTags | pkg/resource/auto_scaling_group/manager.go:281-298 | the resource's tags become a listing of its own tags and the defaults, and its own value wins; nothing else changes |
| TagPipeline.FilterSystemTags | pkg/resource/auto_scaling_group/manager.go:319-329 | the resource's tags become a listing of those that are not ignored; nil is a no-op |
| TagPipeline.MirrorAWSTags | pkg/resource/auto_scaling_group/manager.go:342-354 | the desired tags become a listing of themselves with the latest AWS tags, and the latest value of those wins; if either side is nil nothing happens |
| TagPipeline.FilterUndoesEnsureAndMirror | pkg/resource/auto_scaling_group/manager.go:281-354 | adding defaults, mirroring and filtering gives the user's list back in its order, nil values made "", if and only if the list held only user tags with distinct keys and every default is filtered out again or already there; for every iteration order |
| TagPipeline.FilterUndoesExtension | pkg/resource/auto_scaling_group/manager.go:319-329 | filtering an extended list gives the original back, order included |
| TagPipeline.OnlyUserTagsComeBack | pkg/resource/auto_scaling_group/tags.go:85-92 | what filtering can give back is made of user tags only |
| TagSync.RequestsAreDisjoint | pkg/tags/tags.go:55-61 | the add and remove requests share no key, the removed keys are those not desired, and the order in which the two arrive makes no difference to the service |
| TagSync.SyncAtKey | pkg/tags/tags.go:52-103 | key by key: new and changed pairs are added, undesired keys removed, nothing is removed once an addition failed, and everything else stays; the error of the call that failed, and the number of calls |
| TagSync.Tags | pkg/tags/tags.go:39-103 | what the two calls leave on the service, which error is returned and how many calls are made, for every outcome of each call |
| TagSync.Send | pkg/tags/tags.go:63-103 | additions first, early return on failure with that call's error, then removals; empty requests make no call |
| TagSync.DropChanged | pkg/tags/tags.go:57-61 | deleting from `removed` while ranging leaves exactly the keys that were not added |
| TagSync.ListPairs | pkg/tags/tags.go:64-73 | the list that is sent stands for the map, in whatever order it is ranged over |
| TagSync.AWSTagsAreSafe | pkg/tags/tags.go:55-97 | after mirroring, no AWS tag of the group is in either request, no AWS key at all is in the remove request, and an AWS key is in the add request if and only if it is desired and the group lacks it |
| TagSync.CallsIffTagsDiffer | pkg/tags/tags.go:52-101 | the step makes a call if and only if the two tag maps differ |
| TagSync.AdditionsComeFirst | pkg/tags/tags.go:63-101 | after a failed addition no key is gone; once additions succeeded every added pair has arrived whatever becomes of the removal |
| TagSync.StepMovesTowards | pkg/tags/tags.go:52-103 | on every key an attempt leaves the old value or brings the target's, whatever fails and however partially |
| TagSync.StepKeepsAWS | pkg/tags/tags.go:52-103 | an attempt keeps every AWS tag, and with it the target of the following attempts |
| TagSync.StepShrinksDifference | pkg/tags/tags.go:52-103 | an attempt adds no key to the set of differing ones |
| TagSync.CleanStepReachesTarget | pkg/tags/tags.go:52-103 | an attempt whose calls succeed leaves exactly the mirrored desired map |
| TagSync.RunConverges | pkg/tags/tags.go:39-103 | over every run of attempts with arbitrary failures: differing keys only become fewer, AWS tags keep their values, the target is fixed, and from the first clean attempt on the tags are the target |
| Resource.AutoScalingGroup.SetStatus | pkg/resource/auto_scaling_group/resource.go:83-85 | the status is taken over with its condition pointers |
| Resource.AutoScalingGroup.DeepCopy | apis/v1alpha1/zz_generated.deepcopy.go:176-193 | a new object with new distinct conditions: equal spec, namespace, metadata and condition values, a nil list kept nil |
| SpecValues.RequirementsTells | apis/v1alpha1/zz_generated.deepcopy.go:1390-1565 | no two requirements blocks have the same tree: each of the 25 fields shows in it |
| SpecValues.SpecTells | apis/v1alpha1/zz_generated.deepcopy.go:235-460 | no two specs have the same tree: each of the 35 fields shows in it, with everything below |
| DeepCopy.OneValue | apis/v1alpha1/zz_generated.deepcopy.go:258-262 | a graph of objects stands for one tree at most, so standing for a tree says all there is to say about the graph |
| DeepCopy.Copy | apis/v1alpha1/zz_generated.deepcopy.go:236-262 | the block for one field: nil stays nil; anything else becomes a graph of new objects that stands for the same tree and shares nothing within itself, even where the original does |
| DeepCopy.CopyStruct | apis/v1alpha1/zz_generated.deepcopy.go:691-703 | `*out = *in` shares every slot at first; once each block has run, nothing reachable is shared and the struct stands for the same tree |
| DeepCopy.CopySlice | apis/v1alpha1/zz_generated.deepcopy.go:247-257 | a slice of pointers: same length, same nil slots, every element copied deeply, nothing shared |
| DeepCopy.HookFits | apis/v1alpha1/zz_generated.deepcopy.go:1898-1940 | the code for a hook has a block for each of its eight fields, the role reference included |
| DeepCopy.RequirementsFits | apis/v1alpha1/zz_generated.deepcopy.go:1390-1565 | the code for a requirements block has a block for each of its 25 fields, with the performance factors three levels down |
| DeepCopy.OverrideFits | apis/v1alpha1/zz_generated.deepcopy.go:1778-1806 | the code for an override has a block for each of its five fields |
| DeepCopy.LaunchTemplateFits | apis/v1alpha1/zz_generated.deepcopy.go:1747-1766 | the code for a launch template has a block for its specification and one for each override |
| DeepCopy.MixedFits | apis/v1alpha1/zz_generated.deepcopy.go:2113-2125 | the code for a mixed-instances policy has a block for the instances distribution and one for the launch template |
| DeepCopy.SpecFits | apis/v1alpha1/zz_generated.deepcopy.go:235-460 | the code for a spec has a block for each of its 35 fields, all the way down |
| DeepCopy.OneSpec | apis/v1alpha1/zz_generated.deepcopy.go:235-460 | a graph stands for one spec at most |
| DeepCopy.CopySpec | apis/v1alpha1/zz_generated.deepcopy.go:463-471 | the copy of a spec stands for the same spec, all 35 fields at every depth and slot; everything reachable from it is new, and reached in one way only |
| DeepCopy.WriteAt | apis/v1alpha1/zz_generated.deepcopy.go:463-471 | a write through a path of pointers in a graph without sharing changes what the graph stands for at the end of the path and nowhere else |
| DeepCopy.OverwriteOther | apis/v1alpha1/zz_generated.deepcopy.go:463-471 | whatever is written to whatever is reachable from one graph, a disjoint graph stands for what it stood for |
| DeepCopy.OverwriteCopy | apis/v1alpha1/zz_generated.deepcopy.go:463-471 | copy a spec and write through the copy at any path: the copy is the spec changed there and nowhere else, and the original stands for its spec as before |
| DeepCopy.OverwriteOriginal | apis/v1alpha1/zz_generated.deepcopy.go:463-471 | copy a spec and overwrite anything reachable from the original: the copy still stands for the spec the original had |
| References.GetReferencedResourceState | pkg/resource/auto_scaling_group/references.go:176-224 | the object, or the error: not found, else terminal, else not synced, else without its target field; none if and only if the object can be used |
| References.WhatIsUsable | pkg/resource/auto_scaling_group/references.go:176-224 | an object is usable if and only if no condition says terminal, some condition says synced and its target field is set; terminal is complained about before not synced, and that before a missing field |
| References.ResolveOne | pkg/resource/auto_scaling_group/references.go:150-168 | a reference resolves to the target field of the named object, looked up in the reference's own namespace when it gives one and in the resource's otherwise, or to the error that says why not |
| References.ValidateReferenceFields | pkg/resource/auto_scaling_group/references.go:121-141 | the first field, in the order of the code, that is given both as a reference and as a value; no error if and only if there is none |
| References.ResolveReferenceForInstanceID | pkg/resource/auto_scaling_group/references.go:147-170 | spec, flag and error of the first stage, the error being that of its reference |
| References.ResolveReferenceForHookRoleARNs | pkg/resource/auto_scaling_group/references.go:230-255 | hooks are resolved in order up to the first that fails, whose error is returned; the flag is true if and only if one of the hooks names an object |
| References.ResolveReferenceForServiceLinkedRoleARN | pkg/resource/auto_scaling_group/references.go:315-338 | spec, flag and error of the third stage, the error being that of its reference |
| References.ResolveReferenceForTargetGroupARNs | pkg/resource/auto_scaling_group/references.go:398-426 | ARNs are appended in order up to the first reference that fails, whose error is returned |
| References.ResolveReferences | pkg/resource/auto_scaling_group/references.go:83-117 | the resource passed in is changed in place by the four stages up to the first failure; the error is that failure's, or else the failed validation's; without an error each target is the field of the object that its reference names, in the reference's own namespace when it gives one |
| References.ClearResolvedReferences | pkg/resource/auto_scaling_group/references.go:52-74 | a fresh copy without the targets of references; the input stays |
| References.ResolutionChangesTargetsOnly | pkg/resource/auto_scaling_group/references.go:147-426 | wherever it stops, resolution changes only the four target fields, and each only beside a reference |
| References.ClearUndoesResolution | pkg/resource/auto_scaling_group/references.go:52-141 | for every spec, every cluster and every point of failure: clearing gives the original back (nil and empty ARN lists alike) if and only if the original passes validation |
| References.ResolutionReports | pkg/resource/auto_scaling_group/references.go:83-117 | the flag is true if and only if the spec has a reference that names an object, on failing paths too; the stages go through if and only if every such reference resolves; then the ARNs are the original ones followed by one per reference, in order |
| References.TargetsAreTaken | pkg/resource/auto_scaling_group/references.go:147-426 | when the stages go through, each target is the field of the object its reference names, and each ARN stands behind the original ones and those of the references before it |
| References.StopsAtInstanceOrHook | pkg/resource/auto_scaling_group/references.go:147-255 | an instance reference that cannot be resolved leaves everything as it was; the first hook that cannot leaves itself and everything behind it; its complaint is the error |
| References.StopsAtRoleOrGroup | pkg/resource/auto_scaling_group/references.go:315-426 | the same for the service-linked role and for the first target group that cannot be resolved |
| Conditions.SetStatusDefaults | pkg/resource/auto_scaling_group/sdk.go:1973-1988 | a missing region is filled in with the region, a missing owner with the account, what is present stays, and a nil condition list becomes empty |
| Conditions.Find | pkg/resource/auto_scaling_group/sdk.go:2004-2014 | the loop ends at the last condition of the type |
| Conditions.Set | pkg/resource/auto_scaling_group/sdk.go:2017-2057 | the last condition of the type is written through its pointer, or a new one is appended |
| Conditions.Reset | pkg/resource/auto_scaling_group/sdk.go:2033-2037 | the last condition of the type, if any, becomes False without a message |
| Conditions.UpdateConditions | pkg/resource/auto_scaling_group/sdk.go:1992-2065 | the new conditions on a deep copy, or nothing when no tracked condition exists; the input is not modified |
| Conditions.OnError | pkg/resource/auto_scaling_group/manager.go:382-402 | the resource with the error recorded, and the terminal error if and only if some condition says terminal |
| Conditions.OnSuccess | pkg/resource/auto_scaling_group/manager.go:406-417 | the resource with success recorded; the resource passed in when there was nothing to record |
| Conditions.PutFrame | pkg/resource/auto_scaling_group/sdk.go:2017-2057 | a write adds at most one condition, moves and removes none, and leaves every other one alone |
| Conditions.PutIsThere | pkg/resource/auto_scaling_group/sdk.go:2017-2057 | after a write the last condition of the type has the new status and message |
| Conditions.TerminalIffClassified | pkg/resource/auto_scaling_group/manager.go:391-400 | for every condition list: the terminal error comes back if and only if the error is classified terminal or an earlier Terminal condition was already True |
| Conditions.WhatIsRecorded | pkg/resource/auto_scaling_group/sdk.go:2015-2087 | an error is terminal if and only if it is one of the two sentinels, wraps the terminal error or is an API error with one of the three codes; which text is recorded in each case |
| Conditions.WhatIsTracked | pkg/resource/auto_scaling_group/sdk.go:2061-2064 | there is something to report if and only if there was an error or a condition of one of the three types |
| Conditions.OnErrorReturnsTerminalIffClassified | pkg/resource/auto_scaling_group/manager.go:382-402 | with at most one Terminal condition, the terminal error comes back if and only if the error is classified terminal |
| Conditions.LeftoverTerminalMisleads | pkg/resource/auto_scaling_group/manager.go:391-400 | with two Terminal conditions a recoverable error can come back as the terminal one |
| Conditions.StepKeepsOrder | pkg/resource/auto_scaling_group/sdk.go:1992-2065 | one operation keeps at most one condition of each kind, adds exactly the missing ones it adds, moves none and leaves other types alone |
| Conditions.RunKeepsOrder | pkg/resource/auto_scaling_group/sdk.go:1992-2065 | the same over every run of operations: at most two conditions are ever added |
| Conditions.LastOutcomeDecides | pkg/resource/auto_scaling_group/sdk.go:2015-2064 | after a success neither condition is True; after a terminal error Terminal is True with its message and Recoverable is as it was; after another error exactly Recoverable is True with its message |
| ManagerCache.KeyIsInjective | pkg/resource/auto_scaling_group/manager_factory.go:61 | the cache key tells account, region and role apart when account and region hold no slash, whatever the role holds |
| ManagerCache.SlashesCollide | pkg/resource/auto_scaling_group/manager_factory.go:61 | every key is the key of an account and region without slashes, which are the caller's own if and only if those hold none; so a slash in either always lets another caller share the key |
| ManagerCache.StepKeepsExclusive | pkg/resource/auto_scaling_group/manager_factory.go:62-71 | the lock excludes: never a writer beside another writer or a reader |
| ManagerCache.StepKeepsExplained | pkg/resource/auto_scaling_group/manager_factory.go:62-78 | every cached or held manager was built for a call with the key it goes by, and cached keys stay |
| ManagerCache.EveryRunIsSafe | pkg/resource/auto_scaling_group/manager_factory.go:48-79 | in every interleaving of any number of calls: a returned manager carries the caller's account and region and was built for a call with its account, region and role, the same goes for every cached one, cached keys stay cached, and the map is never written beside another access |
| ManagerCache.SomeoneCanStep | pkg/resource/auto_scaling_group/manager_factory.go:62-71 | the lock never blocks everyone: in every state with a call that has not returned, some call can step |
| ManagerCache.AtMostSixSteps | pkg/resource/auto_scaling_group/manager_factory.go:62-78 | however the calls are scheduled, each takes at most six steps that are not waiting |
| ManagerCache.FairRunsFinish | pkg/resource/auto_scaling_group/manager_factory.go:62-78 | no call waits forever: after six rounds per call, each with a turn for every call, every call has returned, whatever the order within the rounds |
| ManagerCache.AloneSteps | pkg/resource/auto_scaling_group/manager_factory.go:62-78 | a call that runs alone hits, or builds and inserts |
| ManagerCache.ResourceManagerFactory.ManagerFor | pkg/resource/auto_scaling_group/manager_factory.go:48-79 | a cached manager is returned as it is; on a miss a new one with the account, region and configuration of the call is returned and cached under account/region/role; the call does exactly what six undisturbed steps do |
| ManagerCache.TwoManagersForOneKey | pkg/resource/auto_scaling_group/manager_factory.go:62-78 | a run in which two calls for one key return different managers, because the key is not looked up again under the write lock |
| ManagerCache.RivalsStay | pkg/resource/auto_scaling_group/manager_factory.go:62-78 | two calls that once built for one key together hold different managers ever after |
| ManagerCache.OneManagerPerKey | pkg/resource/auto_scaling_group/manager_factory.go:62-78 | over complete runs, all calls with a key return the very same manager if and only if no two of them were ever both between a vain lookup and their insertion |
| RoundTrips.SettingsRoundTrip | pkg/resource/auto_scaling_group/sdk.go:94-684 | for each field that both payloads carry: no difference after the trip if and only if the value survives it |
| RoundTrips.CreateRoundTrip | pkg/resource/auto_scaling_group/sdk.go:757-1354 | create, store, describe, compare: for every spec the builder accepts and every order in which tags are listed, nothing is reported if and only if every field survives |
| RoundTrips.TidySpecsSurvive | pkg/resource/auto_scaling_group/sdk.go:757-1354 | every field survives when no enumeration is "", no string list has a nil slot and no override is nil; and only then, if the list comparison tells nil slots from "" |
| RoundTrips.TidySpecsRoundTrip | pkg/resource/auto_scaling_group/sdk.go:94-684 | a created group is then never reported as different, and with such a comparison it is reported for every other spec |
| RoundTrips.EmptyStrategyIsReported | pkg/resource/auto_scaling_group/sdk.go:766-772 | for example: a distribution strategy set to "" is reported right after the create |
| RoundTrips.ReadAfterUpdate | pkg/resource/auto_scaling_group/sdk.go:1407-1934 | after an update a field that was sent reads as its own round trip, every other field as before |
| RoundTrips.UpdateDecidesDelta | pkg/resource/auto_scaling_group/sdk.go:1407-1934 | after an update and a re-read: a sent field is reported if and only if its value does not survive; any other field exactly as before the update |
| RoundTrips.UpdateConverges | pkg/resource/auto_scaling_group/sdk.go:1358-1403 | exactly what is left after an update: the paths reported before it at fields the desired spec leaves unset and at load balancers, target groups and traffic sources |
| RoundTrips.UpdateIsIdempotent | pkg/resource/auto_scaling_group/sdk.go:1407-1934 | the same update again changes nothing |
| RoundTrips.ImmovableFieldsAgree | pkg/resource/auto_scaling_group/delta.go:159-165 | fields that the read takes from the input, and a name or tag map that is equal, are not reported |
| RoundTrips.ReadNeverReportsImmovable | pkg/resource/auto_scaling_group/delta.go:391-393 | comparing a resource with what was read into it never reports instance id, references, hooks or the zonal shift flag |
| Reconcile.WhatIsReported | pkg/resource/auto_scaling_group/sdk.go:1371-1384 | tags are reported if and only if some path lies at the tags, and more if and only if some path does not |
| Reconcile.ErrorsTellHowFar | pkg/resource/auto_scaling_group/sdk.go:1371-1395 | each error says how far the step got: after a failed tag call, or with a number that does not fit, the group is untouched; it changes only if no tag call failed, more was reported, every number fits, the name is known and the update was carried out |
| Reconcile.SdkUpdate | pkg/resource/auto_scaling_group/sdk.go:1358-1403 | the whole effect on the service, the error returned and the calls made, for every outcome: tags first, an early return with the tag call's error and no update call, none when only tags differ or a number does not fit, else exactly one; the answer takes over the latest status in one case and copies the desired one in the other |
| Reconcile.SendUpdate | pkg/resource/auto_scaling_group/sdk.go:1385-1402 | the payload or the number that does not fit, the call or its error, and a fresh copy with status defaults |
| Passes.TagsReportedIffCalled | pkg/resource/auto_scaling_group/delta.go:379-383 | the comparison reports the tags if and only if the sync on the same pair makes at least one call |
| Passes.SuccessReachesTarget | pkg/tags/tags.go:63-103 | a sync that reports success has reached its target, whichever calls it needed |
| Passes.PassIsATagStep | pkg/resource/auto_scaling_group/sdk.go:1371-1384 | whatever fails, a pass moves the tags by one step of the tag protocol |
| Passes.PassWithoutFailures | pkg/resource/auto_scaling_group/sdk.go:1358-1403 | when no call fails, a pass succeeds if and only if no update is called for or every number fits; the error names the first that does not |
| Passes.PassSettles | pkg/resource/auto_scaling_group/sdk.go:1358-1403 | after a successful pass and a new read every field is decided: a sent field agrees if and only if its value survives or no update was called for; fields the pass cannot settle are reported as before; all others agree |
| Passes.PassConverges | pkg/resource/auto_scaling_group/sdk.go:1358-1403 | after a successful pass and a new read, in whatever order tags are listed, exactly those paths are reported that were reported before at fields it cannot settle |
| Passes.NextPassChangesNothing | pkg/resource/auto_scaling_group/sdk.go:1358-1403 | a successful pass is final: the next one leaves group and tags as they are, whatever the outcomes of its calls |
| Passes.MirrorIsStable | pkg/resource/auto_scaling_group/manager.go:342-354 | mirroring tags that are mirrored already leaves the list as it is, order included |
| Passes.CreatedGroupIsLeftAlone | pkg/resource/auto_scaling_group/sdk.go:757-1354 | a group just created from a tidy spec is left alone by the next pass: nothing is reported, the pass succeeds, and group and tags stay as they are |
| Passes.Pass | pkg/resource/auto_scaling_group/manager.go:95-113 | read and mirror, compare, update: the code of a pass does what the effect as a function says, and the desired resource only gains mirrored tags |
| PassRuns.OnlyTheMapMatters | pkg/resource/auto_scaling_group/delta.go:379-383 | of the desired tags, nothing but the map they stand for matters to a pass, so neither list order nor iteration order does |
| PassRuns.RunOfPasses | pkg/resource/auto_scaling_group/sdk.go:1358-1403 | over any run of passes from one desired spec, with any failure at any call and any order of tags: the group is the first one or the first one updated, nothing in between; from the first success on, neither group nor tags change |
| PassRuns.TagsOfPasses | pkg/resource/auto_scaling_group/sdk.go:1371-1384 | the tags of such a run go through the states of a run of the tag protocol, so RunConverges holds for them |
| PassRuns.SuccessIsFinal | pkg/resource/auto_scaling_group/sdk.go:1358-1403 | a pass that succeeds, whenever it does, leaves the desired tags with the AWS tags the group had at the very beginning, for good |

## Left out

- The service's own defaults and validation (a default capacity, a minimum above the maximum): not in this code.
- `sdkCreate`, `sdkDelete`, requeueing, late initialisation, finalizers, identifiers, adoption: they would add only easy members.
- Process wiring, flags, registration, metrics, logging and tracing.
- Update in place of the spec below its top-level fields: outside `DeepCopy` a spec is a value in a field of the resource, so aliasing between two resources that share parts of a spec (as a payload and its source do) is not modelled.
- The names of types and fields in a deep copy: the generator writes the same statements for every field of a kind, so one method stands for each kind and a type is the list of its fields' kinds.
- Nil slots in tag lists and hook lists of a spec: every function that walks those two lists dereferences each slot. The copy of a slice covers them.
- Merge: of the status it sets the group's status and the predicted capacity; creation time, enabled metrics, suspended processes and the warm pool, which are only copied, are not part of the model.
- AutoScalingGroup.DeepCopy: object metadata other than the namespace is not part of the model, and the spec is one value here; `DeepCopy.CopySpec` shows that its copy shares nothing.
- NewCreateRequestPayload: requires that the override, traffic source, performance reference and enumeration lists hold no nil slot, because the builder dereferences every slot of them; so do NewUpdateRequestPayload and the methods below them.
- UpdateConverges: asks that every field that was sent survives the trip; UpdateDecidesDelta states the exact report without that.
- PassConverges: the same; PassSettles states each field's report without it.
- The integer ranges share one type, and so do the float ranges; floats are reals, so NaN and rounding are not modelled.
- Error texts are values that name the field or the code; the text of a condition's message is a field of the error. The error's chain is modelled by what the code asks of it.
- The resource id, resource type and propagation flag of a tag request: constants of the call.
- Reasons and timestamps of conditions: the code does not set them.
- The cluster is read as of one moment: two references to one object see the same object.
- The four `getReferencedResourceState_*` functions share one method: they differ in the kind of object alone.
- newResourceManager never returns an error, so `ManagerFor` has no error result here.
- OneManagerPerKey: the runs it decides are those in which every call has returned, as every fair run does in the end (FairRunsFinish).
- DeltaIsSymmetric: needs the string list comparison to be symmetric, which the library's contract promises.
- ImmovableFieldsAgree: covers the name and the tags only when they are equal on both sides, because those two can differ.
