/** `sdkFind` (sdk.go) and `ReadOne` (manager.go): the described group read into a copy of the
    resource. */
module Reading {
  import opened Basics
  import opened Api
  import opened Codec
  import opened Conditions
  import opened GroupShapes
  import opened Resource
  import opened TagLists
  import TagPipeline
  import Wire

  // ---- decoding -----------------------------------------------------------------------------

  method ReadStrings(l: Slice<string>) returns (out: StringList)
    ensures out == PointStrings(l)
  {
    if l.NilSlice? {
      return NilSlice;
    }
    var read: seq<Option<string>> := [];
    for i := 0 to |l.elems|
      invariant |read| == i
      invariant forall j | 0 <= j < i :: read[j] == Some(l.elems[j])
    {
      read := read + [Some(l.elems[i])];
    }
    assert read == PointStrings(l).elems;
    out := Elems(read);
  }

  method ReadReferences(l: Slice<PerformanceFactorReference>) returns (out: Slice<Option<PerformanceFactorReference>>)
    ensures out == DecodeReferences(l)
  {
    if l.NilSlice? {
      return NilSlice;
    }
    var read: seq<Option<PerformanceFactorReference>> := [];
    for i := 0 to |l.elems|
      invariant |read| == i
      invariant forall j | 0 <= j < i :: read[j] == Some(l.elems[j])
    {
      read := read + [Some(PerformanceFactorReference(l.elems[i].instanceFamily))];
    }
    assert read == DecodeReferences(l).elems;
    out := Elems(read);
  }

  method ReadFactors(o: Option<Wire.BaselinePerformanceFactors>) returns (out: Option<BaselinePerformanceFactors>)
    ensures out == DecodeFactors(o)
  {
    if o.None? {
      return None;
    }
    if o.value.cpu.None? {
      return Some(BaselinePerformanceFactors(None));
    }
    var references := ReadReferences(o.value.cpu.value.references);
    out := Some(BaselinePerformanceFactors(Some(CPUPerformanceFactor(references))));
  }

  method ReadRequirements(o: Option<Wire.InstanceRequirements>) returns (out: Option<InstanceRequirements>)
    ensures out == DecodeRequirements(o)
  {
    if o.None? {
      return None;
    }
    var q := o.value;
    var acceleratorManufacturers := ReadStrings(q.acceleratorManufacturers);
    var acceleratorNames := ReadStrings(q.acceleratorNames);
    var acceleratorTypes := ReadStrings(q.acceleratorTypes);
    var factors := ReadFactors(q.baselinePerformanceFactors);
    var cpuManufacturers := ReadStrings(q.cpuManufacturers);
    var instanceGenerations := ReadStrings(q.instanceGenerations);
    var localStorageTypes := ReadStrings(q.localStorageTypes);
    out := Some(InstanceRequirements(
                  DecodeRange(q.acceleratorCount), acceleratorManufacturers, acceleratorNames,
                  DecodeRange(q.acceleratorTotalMemoryMiB), acceleratorTypes, PointStrings(q.allowedInstanceTypes),
                  DecodeEnum(q.bareMetal), DecodeRange(q.baselineEbsBandwidthMbps), factors,
                  DecodeEnum(q.burstablePerformance), cpuManufacturers, PointStrings(q.excludedInstanceTypes),
                  instanceGenerations, DecodeEnum(q.localStorage), localStorageTypes,
                  Widened(q.maxSpotPriceAsPercentageOfOptimalOnDemandPrice), q.memoryGiBPerVCpu,
                  DecodeRange(q.memoryMiB), q.networkBandwidthGbps, DecodeRange(q.networkInterfaceCount),
                  Widened(q.onDemandMaxPricePercentageOverLowestPrice), q.requireHibernateSupport,
                  Widened(q.spotMaxPricePercentageOverLowestPrice), q.totalLocalStorageGB, DecodeRange(q.vCpuCount)));
  }

  method ReadOverrides(l: Slice<Wire.LaunchTemplateOverrides>) returns (out: Slice<Option<LaunchTemplateOverrides>>)
    ensures out == DecodeOverrides(l)
  {
    if l.NilSlice? {
      return NilSlice;
    }
    var read: seq<Option<LaunchTemplateOverrides>> := [];
    for i := 0 to |l.elems|
      invariant |read| == i
      invariant forall j | 0 <= j < i :: read[j] == DecodeOverride(l.elems[j])
    {
      var w := l.elems[i];
      var requirements := ReadRequirements(w.instanceRequirements);
      read := read + [Some(LaunchTemplateOverrides(w.imageId, requirements, w.instanceType,
                                                   w.launchTemplateSpecification, w.weightedCapacity))];
    }
    assert read == DecodeOverrides(l).elems;
    out := Elems(read);
  }

  method ReadMixed(o: Option<Wire.MixedInstancesPolicy>) returns (out: Option<MixedInstancesPolicy>)
    ensures out == DecodeMixed(o)
  {
    if o.None? {
      return None;
    }
    var distribution := DecodeDistribution(o.value.instancesDistribution);
    if o.value.launchTemplate.None? {
      return Some(MixedInstancesPolicy(distribution, None));
    }
    var template := o.value.launchTemplate.value;
    var overrides := ReadOverrides(template.overrides);
    out := Some(MixedInstancesPolicy(
                  distribution, Some(LaunchTemplate(template.launchTemplateSpecification, overrides))));
  }

  method ReadTags(l: Slice<Tag>) returns (out: Slice<Tag>)
    ensures out == l
  {
    if l.NilSlice? {
      return NilSlice;
    }
    var read: seq<Tag> := [];
    for i := 0 to |l.elems|
      invariant read == l.elems[..i]
    {
      read := read + [Tag(l.elems[i].key, l.elems[i].value)];
    }
    out := Elems(read);
  }

  method ReadTraffic(l: Slice<TrafficSource>) returns (out: Slice<Option<TrafficSource>>)
    ensures out == DecodeTraffic(l)
  {
    if l.NilSlice? {
      return NilSlice;
    }
    var read: seq<Option<TrafficSource>> := [];
    for i := 0 to |l.elems|
      invariant |read| == i
      invariant forall j | 0 <= j < i :: read[j] == Some(l.elems[j])
    {
      read := read + [Some(TrafficSource(l.elems[i].identifier, l.elems[i].kind))];
    }
    assert read == DecodeTraffic(l).elems;
    out := Elems(read);
  }

  // ---- the read -----------------------------------------------------------------------------

  /** What the DescribeAutoScalingGroups call brings. */
  datatype Answer = Failed(error: Error) | Groups(groups: seq<Wire.Group>)

  /** The one error code that the read takes for "does not exist". */
  predicate SaysUnknown(e: Error) {
    e.api.Some? && e.api.value.code == OtherCode("UNKNOWN")
  }

  /** Why a read brings nothing, if so. */
  function FindError(name: Option<string>, answer: Answer, notFound: Error): Option<Error> {
    if name.None? then Some(notFound)
    else
      match answer
      case Failed(e) => Some(if SaysUnknown(e) then notFound else e)
      case Groups(groups) => if groups == [] then Some(notFound) else None
  }

  function WithARN(m: Option<Metadata>, arn: Option<string>): Option<Metadata> {
    if arn.None? then m
    else Some((if m.Some? then m.value else Metadata(None, None, None)).(arn := arn))
  }

  /** Copies one described group into the resource: every field is assigned, with nil where the group
      has nil, except the ARN, which is only ever set. */
  method Merge(ko: AutoScalingGroup, elem: Wire.Group)
    modifies ko`spec, ko`metadata, ko`groupStatus, ko`predictedCapacity
    ensures ko.spec == Found(old(ko.spec), elem)
    ensures ko.metadata == WithARN(old(ko.metadata), elem.arn)
    ensures elem.arn.None? ==> ko.metadata == old(ko.metadata)
    ensures elem.arn.Some? ==>
              && ko.metadata.Some? && ko.metadata.value.arn == elem.arn
              && ko.metadata.value.region == (if old(ko.metadata).Some? then old(ko.metadata).value.region else None)
              && ko.metadata.value.ownerAccountID
                 == (if old(ko.metadata).Some? then old(ko.metadata).value.ownerAccountID else None)
    ensures ko.groupStatus == elem.status && ko.predictedCapacity == Widened(elem.predictedCapacity)
  {
    if elem.arn.Some? {
      if ko.metadata.None? {
        ko.metadata := Some(Metadata(None, None, None));
      }
      ko.metadata := Some(ko.metadata.value.(arn := elem.arn));
    }
    var w := elem.settings;
    var mixed := ReadMixed(w.mixedInstancesPolicy);
    var tags := ReadTags(elem.tags);
    var traffic := ReadTraffic(elem.trafficSources);
    ko.spec := ko.spec.(
      name := w.name,
      availabilityZoneDistribution := DecodeDistributionOfZones(w.availabilityZoneDistribution),
      availabilityZoneImpairmentPolicy := DecodeImpairment(w.availabilityZoneImpairmentPolicy),
      availabilityZones := PointStrings(w.availabilityZones),
      capacityRebalance := w.capacityRebalance,
      capacityReservationSpecification := DecodeReservation(w.capacityReservationSpecification),
      defaultCooldown := Widened(w.defaultCooldown),
      defaultInstanceWarmup := Widened(w.defaultInstanceWarmup),
      desiredCapacity := Widened(w.desiredCapacity),
      desiredCapacityType := w.desiredCapacityType,
      healthCheckGracePeriod := Widened(w.healthCheckGracePeriod),
      healthCheckType := w.healthCheckType,
      instanceLifecyclePolicy := DecodeLifecyclePolicy(w.instanceLifecyclePolicy),
      instanceMaintenancePolicy := DecodeMaintenance(w.instanceMaintenancePolicy),
      launchConfigurationName := w.launchConfigurationName,
      launchTemplate := w.launchTemplate);
    ko.spec := ko.spec.(
      loadBalancerNames := PointStrings(elem.loadBalancerNames),
      maxInstanceLifetime := Widened(w.maxInstanceLifetime),
      maxSize := Widened(w.maxSize),
      minSize := Widened(w.minSize),
      mixedInstancesPolicy := mixed,
      newInstancesProtectedFromScaleIn := w.newInstancesProtectedFromScaleIn,
      placementGroup := w.placementGroup,
      serviceLinkedRoleARN := w.serviceLinkedRoleARN,
      tags := tags,
      targetGroupARNs := PointStrings(elem.targetGroupARNs),
      terminationPolicies := PointStrings(w.terminationPolicies),
      trafficSources := traffic,
      vpcZoneIdentifier := w.vpcZoneIdentifier);
    ko.predictedCapacity := Widened(elem.predictedCapacity);
    ko.groupStatus := elem.status;
  }

  /** Merges the first group, if there is one, into a copy. */
  method MergeFirst(r: AutoScalingGroup, groups: seq<Wire.Group>, ghost before: seq<ConditionView>)
    returns (ko: AutoScalingGroup, found: bool)
    requires r.ConditionViews() == before
    ensures found <==> groups != []
    ensures fresh(ko) && fresh(ko.Pointers()) && ko.DistinctConditions() && ko.namespace == r.namespace
    ensures ko.ConditionViews() == before
    ensures found ==>
              && ko.spec == Found(r.spec, groups[0])
              && ko.metadata == WithARN(r.metadata, groups[0].arn)
              && ko.groupStatus == groups[0].status
              && ko.predictedCapacity == Widened(groups[0].predictedCapacity)
  {
    hide Found, WithARN;
    ko := r.DeepCopy();
    found := false;
    for i := 0 to |groups|
      invariant i == 0 && !found
    {
      Merge(ko, groups[i]);
      found := true;
      break;
    }
  }

  /** Only the first group of the answer is read. What comes back is a new object; the resource that
      was asked about stays as it is. */
  method SdkFind(r: AutoScalingGroup, answer: Answer, notFound: Error, region: string, account: string,
                 ghost before: seq<ConditionView>)
    returns (latest: AutoScalingGroup?, err: Option<Error>)
    requires r.ConditionViews() == before
    ensures err == FindError(r.spec.name, answer, notFound)
    ensures r.spec.name.None? ==> err == Some(notFound)
    ensures r.spec.name.Some? && answer.Failed? ==>
              err == Some(if answer.error.api.Some? && answer.error.api.value.code == OtherCode("UNKNOWN") then notFound
                          else answer.error)
    ensures r.spec.name.Some? && answer.Groups? ==> err == if answer.groups == [] then Some(notFound) else None
    ensures latest == null <==> err.Some?
    ensures latest != null ==>
              && answer.Groups? && answer.groups != []
              && fresh(latest) && fresh(latest.Pointers()) && latest.DistinctConditions()
              && latest.spec == Found(r.spec, answer.groups[0])
              && latest.namespace == r.namespace
              && latest.metadata == Some(WithDefaults(WithARN(r.metadata, answer.groups[0].arn), region, account))
              && latest.groupStatus == answer.groups[0].status
              && latest.predictedCapacity == Widened(answer.groups[0].predictedCapacity)
              && latest.ConditionViews() == before
  {
    hide Found, WithARN, WithDefaults;
    if r.spec.name.None? {
      return null, Some(notFound);
    }
    if answer.Failed? {
      if answer.error.api.Some? && answer.error.api.value.code == OtherCode("UNKNOWN") {
        return null, Some(notFound);
      }
      return null, Some(answer.error);
    }
    var ko, found := MergeFirst(r, answer.groups, before);
    if !found {
      return null, Some(notFound);
    }
    SetStatusDefaults(ko, region, account);
    return ko, None;
  }

  method Conclude(r: AutoScalingGroup, observed: AutoScalingGroup?, err: Option<Error>, region: string, account: string,
                  ghost before: seq<ConditionView>)
    returns (res: AutoScalingGroup, returned: Returned)
    requires observed == null <==> err.Some?
    requires r.ConditionViews() == before && (observed != null ==> observed.ConditionViews() == before)
    ensures res.spec == if observed == null then r.spec else observed.spec
    ensures res.ConditionViews() == After(before, err)
    ensures err.None? ==> returned == NoError
    ensures err.Some? ==> returned == if SaysTerminal(After(before, err)) then TerminalError else Same(err.value)
  {
    if err.Some? {
      res, returned := OnError(r, err.value, region, account);
    } else {
      res := OnSuccess(observed, region, account);
      returned := NoError;
    }
  }

  /** Mirroring leaves the conditions of both sides alone. */
  method Mirror(r: AutoScalingGroup, observed: AutoScalingGroup?, ghost before: seq<ConditionView>)
    returns (ghost rest: seq<string>, ghost out: seq<Tag>)
    requires r != observed && r.ConditionViews() == before && (observed != null ==> observed.ConditionViews() == before)
    modifies r`spec
    ensures r.ConditionViews() == before && (observed != null ==> observed.ConditionViews() == before)
    ensures observed == null ==> r.spec == old(r.spec)
    ensures observed != null ==>
              && r.spec == old(r.spec).(tags := Elems(out))
              && Listing(TagPipeline.Mirrored(TagMap(old(r.spec.tags.Items())), TagMap(observed.spec.tags.Items())),
                         KeyOrder(old(r.spec.tags.Items())), rest, out)
  {
    hide TagMap, KeyOrder;
    rest, out := TagPipeline.MirrorAWSTags(r, observed);
  }

  lemma TagsAreRead(s: Spec, g: Wire.Group)
    ensures Found(s, g).tags == g.tags
  {
  }

  /** Reads, copies the AWS tags of what was read into the desired resource (which is left alone when
      the read fails), and records the outcome in the conditions of what is returned. */
  method ReadOne(r: AutoScalingGroup, answer: Answer, notFound: Error, region: string, account: string)
    returns (res: AutoScalingGroup, returned: Returned, ghost rest: seq<string>, ghost out: seq<Tag>)
    modifies r`spec
    ensures var e := FindError(old(r.spec.name), answer, notFound);
            && res.ConditionViews() == After(old(r.ConditionViews()), e)
            && (e.Some? ==>
                  && res.spec == r.spec == old(r.spec)
                  && returned
                     == if SaysTerminal(After(old(r.ConditionViews()), e)) then TerminalError else Same(e.value))
            && (e.None? ==>
                  && returned == NoError
                  && answer.Groups? && answer.groups != [] && res.spec == Found(old(r.spec), answer.groups[0])
                  && r.spec == old(r.spec).(tags := Elems(out))
                  && Listing(TagPipeline.Mirrored(TagMap(old(r.spec.tags.Items())),
                                                  TagMap(answer.groups[0].tags.Items())),
                             KeyOrder(old(r.spec.tags.Items())), rest, out))
  {
    hide Found, WithARN, WithDefaults, After, TagMap, KeyOrder;
    ghost var before := r.ConditionViews();
    var observed, err := SdkFind(r, answer, notFound, region, account, before);
    if observed != null {
      TagsAreRead(r.spec, answer.groups[0]);
    }
    rest, out := Mirror(r, observed, before);
    res, returned := Conclude(r, observed, err, region, account, before);
  }
}
