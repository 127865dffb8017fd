/** `newCreateRequestPayload` and `newUpdateRequestPayload` (sdk.go): field by field, with append
    loops and an early return at the first number that does not fit 32 bits. Both builders also
    dereference list slots without a nil check; `SettingsFilled` and `CreateFilled` say which. */
module Builders {
  import opened Basics
  import opened Api
  import opened Codec
  import opened GroupShapes
  import opened WireFields
  import Wire

  method NarrowField(field: NumberField, v: Option<int64>) returns (r: Result<Option<int32>, NumberField>)
    ensures r.Ok? ==> Fits(v) && r.value == Narrowed(v)
    ensures r.Err? ==> NarrowError(field, v) == Some(r.error)
  {
    if v.Some? {
      var copy0 := v.value;
      if copy0 > MAX_INT32 || copy0 < MIN_INT32 {
        return Err(field);
      }
      return Ok(Some(Truncate32(copy0)));
    }
    return Ok(None);
  }

  method BuildRange(o: Option<IntRange>) returns (r: Result<Option<Wire.IntRange>, NumberField>)
    ensures r.Ok? ==> RangeFits(o) && r.value == EncodeRange(o)
    ensures r.Err? ==> RangeError(o) == Some(r.error)
  {
    if o.None? {
      return Ok(None);
    }
    var max :- NarrowField(Max, o.value.max);
    var min :- NarrowField(Min, o.value.min);
    return Ok(Some(Wire.IntRange(max, min)));
  }

  method BuildMaintenance(o: Option<InstanceMaintenancePolicy>)
    returns (r: Result<Option<Wire.InstanceMaintenancePolicy>, NumberField>)
    ensures r.Ok? ==> MaintenanceFits(o) && r.value == EncodeMaintenance(o)
    ensures r.Err? ==> MaintenanceError(o) == Some(r.error)
  {
    if o.None? {
      return Ok(None);
    }
    var max :- NarrowField(MaxHealthyPercentage, o.value.maxHealthyPercentage);
    var min :- NarrowField(MinHealthyPercentage, o.value.minHealthyPercentage);
    return Ok(Some(Wire.InstanceMaintenancePolicy(max, min)));
  }

  method BuildEnumList(l: StringList) returns (w: Slice<string>)
    requires NoNilSlots(l)
    ensures w == FillStrings(l)
  {
    if l.NilSlice? {
      return NilSlice;
    }
    var out: seq<string> := [];
    for i := 0 to |l.elems|
      invariant |out| == i
      invariant forall j | 0 <= j < i :: out[j] == EncodeEnum(l.elems[j])
    {
      assert l.Items()[i].Some?;
      out := out + [l.elems[i].value];
    }
    w := Elems(out);
    assert out == FillStrings(l).elems;
  }

  method BuildReferences(l: Slice<Option<PerformanceFactorReference>>) returns (w: Slice<PerformanceFactorReference>)
    requires NoNilSlots(l)
    ensures w == EncodeReferences(l)
  {
    if l.NilSlice? {
      return NilSlice;
    }
    var out: seq<PerformanceFactorReference> := [];
    for i := 0 to |l.elems|
      invariant |out| == i
      invariant forall j | 0 <= j < i :: out[j] == EncodeReference(l.elems[j])
    {
      assert l.Items()[i].Some?;
      out := out + [PerformanceFactorReference(l.elems[i].value.instanceFamily)];
    }
    w := Elems(out);
    assert out == EncodeReferences(l).elems;
  }

  method BuildFactors(o: Option<BaselinePerformanceFactors>) returns (w: Option<Wire.BaselinePerformanceFactors>)
    requires FactorsFilled(o)
    ensures w == EncodeFactors(o)
  {
    if o.None? {
      return None;
    }
    if o.value.cpu.None? {
      return Some(Wire.BaselinePerformanceFactors(None));
    }
    var references := BuildReferences(o.value.cpu.value.references);
    return Some(Wire.BaselinePerformanceFactors(Some(Wire.CpuPerformanceFactor(references))));
  }

  /** The nine numbers of a requirements block, in the order the builder meets them. */
  datatype Numbers = Numbers(
    acceleratorCount: Option<Wire.IntRange>,
    acceleratorTotalMemoryMiB: Option<Wire.IntRange>,
    ebsBandwidth: Option<Wire.IntRange>,
    maxSpotPrice: Option<int32>,
    memoryMiB: Option<Wire.IntRange>,
    networkInterfaceCount: Option<Wire.IntRange>,
    onDemandMaxPrice: Option<int32>,
    spotMaxPrice: Option<int32>,
    vcpuCount: Option<Wire.IntRange>)

  function NumbersOf(q: InstanceRequirements): Numbers {
    Numbers(EncodeRange(q.acceleratorCount), EncodeRange(q.acceleratorTotalMemoryMiB),
            EncodeRange(q.baselineEBSBandwidthMbps), Narrowed(q.maxSpotPriceAsPercentageOfOptimalOnDemandPrice),
            EncodeRange(q.memoryMiB), EncodeRange(q.networkInterfaceCount),
            Narrowed(q.onDemandMaxPricePercentageOverLowestPrice),
            Narrowed(q.spotMaxPricePercentageOverLowestPrice), EncodeRange(q.vcpuCount))
  }

  method BuildNumbers(q: InstanceRequirements) returns (r: Result<Numbers, NumberField>)
    ensures r.Ok? ==> RequirementsFit(Some(q)) && r.value == NumbersOf(q)
    ensures r.Err? ==> RequirementsError(Some(q)) == Some(r.error)
  {
    var acceleratorCount :- BuildRange(q.acceleratorCount);
    var acceleratorTotalMemoryMiB :- BuildRange(q.acceleratorTotalMemoryMiB);
    var ebsBandwidth :- BuildRange(q.baselineEBSBandwidthMbps);
    var maxSpotPrice :- NarrowField(MaxSpotPriceAsPercentageOfOptimalOnDemandPrice,
                                    q.maxSpotPriceAsPercentageOfOptimalOnDemandPrice);
    var memoryMiB :- BuildRange(q.memoryMiB);
    var networkInterfaceCount :- BuildRange(q.networkInterfaceCount);
    var onDemandMaxPrice :- NarrowField(OnDemandMaxPricePercentageOverLowestPrice,
                                        q.onDemandMaxPricePercentageOverLowestPrice);
    var spotMaxPrice :- NarrowField(SpotMaxPricePercentageOverLowestPrice, q.spotMaxPricePercentageOverLowestPrice);
    var vcpuCount :- BuildRange(q.vcpuCount);
    return Ok(Numbers(acceleratorCount, acceleratorTotalMemoryMiB, ebsBandwidth, maxSpotPrice, memoryMiB,
                      networkInterfaceCount, onDemandMaxPrice, spotMaxPrice, vcpuCount));
  }

  method BuildRequirements(o: Option<InstanceRequirements>)
    returns (r: Result<Option<Wire.InstanceRequirements>, NumberField>)
    requires RequirementsFilled(o)
    ensures r.Ok? ==> RequirementsFit(o) && r.value == EncodeRequirements(o)
    ensures r.Err? ==> RequirementsError(o) == Some(r.error)
  {
    if o.None? {
      return Ok(None);
    }
    var q := o.value;
    var n :- BuildNumbers(q);
    var acceleratorManufacturers := BuildEnumList(q.acceleratorManufacturers);
    var acceleratorNames := BuildEnumList(q.acceleratorNames);
    var acceleratorTypes := BuildEnumList(q.acceleratorTypes);
    var factors := BuildFactors(q.baselinePerformanceFactors);
    var cpuManufacturers := BuildEnumList(q.cpuManufacturers);
    var instanceGenerations := BuildEnumList(q.instanceGenerations);
    var localStorageTypes := BuildEnumList(q.localStorageTypes);
    return Ok(Some(Wire.InstanceRequirements(
                     n.acceleratorCount, acceleratorManufacturers, acceleratorNames, n.acceleratorTotalMemoryMiB,
                     acceleratorTypes, FillStrings(q.allowedInstanceTypes), EncodeEnum(q.bareMetal), n.ebsBandwidth,
                     factors, EncodeEnum(q.burstablePerformance), cpuManufacturers,
                     FillStrings(q.excludedInstanceTypes), instanceGenerations, EncodeEnum(q.localStorage),
                     localStorageTypes, n.maxSpotPrice, q.memoryGiBPerVCPU, n.memoryMiB, q.networkBandwidthGbps,
                     n.networkInterfaceCount, n.onDemandMaxPrice, q.requireHibernateSupport, n.spotMaxPrice,
                     q.totalLocalStorageGB, n.vcpuCount)));
  }

  /** Errors found so far stay the first error when the list grows. */
  lemma {:induction false} FirstErrorStays(l: seq<Option<LaunchTemplateOverrides>>, n: nat)
    requires n <= |l| && OverridesError(l[..n]).Some?
    ensures OverridesError(l) == OverridesError(l[..n])
  {
    if n < |l| {
      var init := l[..|l| - 1];
      assert init[..n] == l[..n];
      FirstErrorStays(init, n);
    } else {
      assert l[..n] == l;
    }
  }

  method BuildOverrides(l: Slice<Option<LaunchTemplateOverrides>>)
    returns (r: Result<Slice<Wire.LaunchTemplateOverrides>, NumberField>)
    requires OverridesFilled(l)
    ensures r.Ok? ==> OverridesFit(l.Items()) && r.value == EncodeOverrides(l)
    ensures r.Err? ==> OverridesError(l.Items()) == Some(r.error)
  {
    if l.NilSlice? {
      return Ok(NilSlice);
    }
    var out: seq<Wire.LaunchTemplateOverrides> := [];
    for i := 0 to |l.elems|
      invariant |out| == i
      invariant forall j | 0 <= j < i :: out[j] == EncodeOverride(l.elems[j])
      invariant OverridesError(l.elems[..i]).None?
    {
      assert OverrideFilled(l.Items()[i]);
      var over := l.elems[i].value;
      assert l.elems[..i + 1][..i] == l.elems[..i];
      var requirements := BuildRequirements(over.instanceRequirements);
      if requirements.Err? {
        FirstErrorStays(l.elems, i + 1);
        return Err(requirements.error);
      }
      out := out + [Wire.LaunchTemplateOverrides(over.imageID, requirements.value, over.instanceType,
                                                 over.launchTemplateSpecification, over.weightedCapacity)];
    }
    assert l.elems[..|l.elems|] == l.elems;
    assert out == EncodeOverrides(l).elems;
    return Ok(Elems(out));
  }

  method BuildDistribution(o: Option<InstancesDistribution>)
    returns (r: Result<Option<Wire.InstancesDistribution>, NumberField>)
    ensures r.Ok? ==> DistributionFits(o) && r.value == EncodeDistribution(o)
    ensures r.Err? ==> DistributionError(o) == Some(r.error)
  {
    if o.None? {
      return Ok(None);
    }
    var d := o.value;
    var base :- NarrowField(OnDemandBaseCapacity, d.onDemandBaseCapacity);
    var above :- NarrowField(OnDemandPercentageAboveBaseCapacity, d.onDemandPercentageAboveBaseCapacity);
    var pools :- NarrowField(SpotInstancePools, d.spotInstancePools);
    return Ok(Some(Wire.InstancesDistribution(d.onDemandAllocationStrategy, base, above,
                                              d.spotAllocationStrategy, pools, d.spotMaxPrice)));
  }

  method BuildMixed(o: Option<MixedInstancesPolicy>) returns (r: Result<Option<Wire.MixedInstancesPolicy>, NumberField>)
    requires MixedFilled(o)
    ensures r.Ok? ==> MixedFits(o) && r.value == EncodeMixed(o)
    ensures r.Err? ==> MixedError(o) == Some(r.error)
  {
    if o.None? {
      return Ok(None);
    }
    var distribution :- BuildDistribution(o.value.instancesDistribution);
    if o.value.launchTemplate.None? {
      return Ok(Some(Wire.MixedInstancesPolicy(distribution, None)));
    }
    var template := o.value.launchTemplate.value;
    var overrides :- BuildOverrides(template.overrides);
    return Ok(Some(Wire.MixedInstancesPolicy(
                     distribution, Some(Wire.LaunchTemplate(template.launchTemplateSpecification, overrides)))));
  }

  method BuildHooks(l: Slice<LifecycleHookSpecification>)
    returns (r: Result<Slice<Wire.LifecycleHookSpecification>, NumberField>)
    ensures r.Ok? ==> HooksFit(l) && r.value == EncodeHooks(l)
    ensures r.Err? ==> HooksError(l) == Some(r.error)
  {
    if l.NilSlice? {
      return Ok(NilSlice);
    }
    var out: seq<Wire.LifecycleHookSpecification> := [];
    for i := 0 to |l.elems|
      invariant |out| == i
      invariant forall j | 0 <= j < i :: Fits(l.Items()[j].heartbeatTimeout) && out[j] == EncodeHook(l.elems[j])
    {
      var h := l.elems[i];
      var heartbeat := NarrowField(HeartbeatTimeout, h.heartbeatTimeout);
      if heartbeat.Err? {
        assert !Fits(l.Items()[i].heartbeatTimeout);
        return Err(heartbeat.error);
      }
      out := out + [Wire.LifecycleHookSpecification(
                      h.defaultResult, heartbeat.value, h.lifecycleHookName, h.lifecycleTransition,
                      h.notificationMetadata, h.notificationTargetARN, h.roleARN)];
    }
    assert out == EncodeHooks(l).elems;
    return Ok(Elems(out));
  }

  method BuildTraffic(l: Slice<Option<TrafficSource>>) returns (w: Slice<TrafficSource>)
    requires NoNilSlots(l)
    ensures w == EncodeTraffic(l)
  {
    if l.NilSlice? {
      return NilSlice;
    }
    var out: seq<TrafficSource> := [];
    for i := 0 to |l.elems|
      invariant |out| == i
      invariant forall j | 0 <= j < i :: l.elems[j].Some? && out[j] == l.elems[j].value
    {
      assert l.Items()[i].Some?;
      out := out + [TrafficSource(l.elems[i].value.identifier, l.elems[i].value.kind)];
    }
    w := Elems(out);
    assert out == EncodeTraffic(l).elems;
  }

  method BuildTags(l: Slice<Tag>) returns (w: Slice<Tag>)
    ensures w == l
  {
    if l.NilSlice? {
      return NilSlice;
    }
    var out: seq<Tag> := [];
    for i := 0 to |l.elems|
      invariant out == l.elems[..i]
    {
      out := out + [Tag(l.elems[i].key, l.elems[i].value)];
    }
    w := Elems(out);
  }

  method BuildCreateInput(s: Spec) returns (r: Result<Wire.CreateInput, NumberField>)
    requires CreateFilled(s)
    ensures r.Ok? <==> CreateFits(s)
    ensures r.Ok? ==> r.value == CreateInputOf(s)
    ensures r.Err? ==> CreateError(s) == Some(r.error)
  {
    var defaultCooldown :- NarrowField(DefaultCooldown, s.defaultCooldown);
    var defaultInstanceWarmup :- NarrowField(DefaultInstanceWarmup, s.defaultInstanceWarmup);
    var desiredCapacity :- NarrowField(DesiredCapacity, s.desiredCapacity);
    var healthCheckGracePeriod :- NarrowField(HealthCheckGracePeriod, s.healthCheckGracePeriod);
    var maintenance :- BuildMaintenance(s.instanceMaintenancePolicy);
    var hooks :- BuildHooks(s.lifecycleHooks);
    var maxInstanceLifetime :- NarrowField(MaxInstanceLifetime, s.maxInstanceLifetime);
    var maxSize :- NarrowField(MaxSize, s.maxSize);
    var minSize :- NarrowField(MinSize, s.minSize);
    var mixed :- BuildMixed(s.mixedInstancesPolicy);
    var tags := BuildTags(s.tags);
    var traffic := BuildTraffic(s.trafficSources);
    var settings := Wire.Settings(
      s.name, EncodeDistributionOfZones(s.availabilityZoneDistribution),
      EncodeImpairment(s.availabilityZoneImpairmentPolicy), FillStrings(s.availabilityZones),
      s.capacityRebalance, EncodeReservation(s.capacityReservationSpecification), defaultCooldown,
      defaultInstanceWarmup, desiredCapacity, s.desiredCapacityType, healthCheckGracePeriod,
      s.healthCheckType, EncodeLifecyclePolicy(s.instanceLifecyclePolicy), maintenance,
      s.launchConfigurationName, s.launchTemplate, maxInstanceLifetime, maxSize, minSize, mixed,
      s.newInstancesProtectedFromScaleIn, s.placementGroup, s.serviceLinkedRoleARN,
      FillStrings(s.terminationPolicies), s.vpcZoneIdentifier);
    return Ok(Wire.CreateInput(settings, s.instanceID, hooks, FillStrings(s.loadBalancerNames),
                               s.skipZonalShiftValidation, tags, FillStrings(s.targetGroupARNs), traffic));
  }

  /** All or nothing: a payload comes out exactly when every number that the builder encodes, in every
      hook and every override too, has 32 bits. Each field of the payload then is the field of the spec
      that goes by its name, numbers unchanged; otherwise the error names the first number that does not
      fit. */
  method NewCreateRequestPayload(s: Spec) returns (r: Result<Wire.CreateInput, NumberField>)
    requires CreateFilled(s)
    ensures r.Ok? <==> CreateFits(s)
    ensures r.Ok? ==> r.value == CreateInputOf(s)
    ensures r.Ok? ==>
              var w := r.value.settings;
              && w.name == s.name && w.capacityRebalance == s.capacityRebalance
              && w.defaultCooldown == s.defaultCooldown && w.defaultInstanceWarmup == s.defaultInstanceWarmup
              && w.desiredCapacity == s.desiredCapacity && w.desiredCapacityType == s.desiredCapacityType
              && w.healthCheckGracePeriod == s.healthCheckGracePeriod && w.healthCheckType == s.healthCheckType
              && w.launchConfigurationName == s.launchConfigurationName && w.launchTemplate == s.launchTemplate
              && w.maxInstanceLifetime == s.maxInstanceLifetime && w.maxSize == s.maxSize && w.minSize == s.minSize
              && w.newInstancesProtectedFromScaleIn == s.newInstancesProtectedFromScaleIn
              && w.placementGroup == s.placementGroup && w.serviceLinkedRoleARN == s.serviceLinkedRoleARN
              && w.vpcZoneIdentifier == s.vpcZoneIdentifier
    ensures r.Ok? ==>
              var w := r.value.settings;
              && w.availabilityZoneDistribution == EncodeDistributionOfZones(s.availabilityZoneDistribution)
              && w.availabilityZoneImpairmentPolicy == EncodeImpairment(s.availabilityZoneImpairmentPolicy)
              && w.availabilityZones == FillStrings(s.availabilityZones)
              && w.capacityReservationSpecification == EncodeReservation(s.capacityReservationSpecification)
              && w.instanceLifecyclePolicy == EncodeLifecyclePolicy(s.instanceLifecyclePolicy)
              && w.instanceMaintenancePolicy == EncodeMaintenance(s.instanceMaintenancePolicy)
              && w.mixedInstancesPolicy == EncodeMixed(s.mixedInstancesPolicy)
              && w.terminationPolicies == FillStrings(s.terminationPolicies)
    ensures r.Ok? ==>
              && r.value.instanceId == s.instanceID
              && r.value.skipZonalShiftValidation == s.skipZonalShiftValidation
              && r.value.tags == s.tags
              && r.value.loadBalancerNames == FillStrings(s.loadBalancerNames)
              && r.value.targetGroupARNs == FillStrings(s.targetGroupARNs)
    ensures r.Ok? ==>
              var l, w := s.lifecycleHooks, r.value.lifecycleHooks;
              && (w.NilSlice? <==> l.NilSlice?)
              && (l.Elems? ==>
                    && |w.elems| == |l.elems|
                    && forall i | 0 <= i < |l.elems| ::
                         && w.elems[i].defaultResult == l.elems[i].defaultResult
                         && w.elems[i].heartbeatTimeout == l.elems[i].heartbeatTimeout
                         && w.elems[i].lifecycleHookName == l.elems[i].lifecycleHookName
                         && w.elems[i].lifecycleTransition == l.elems[i].lifecycleTransition
                         && w.elems[i].notificationMetadata == l.elems[i].notificationMetadata
                         && w.elems[i].notificationTargetARN == l.elems[i].notificationTargetARN
                         && w.elems[i].roleARN == l.elems[i].roleARN)
    ensures r.Ok? ==>
              var l, w := s.trafficSources, r.value.trafficSources;
              && (w.NilSlice? <==> l.NilSlice?)
              && (l.Elems? ==>
                    && |w.elems| == |l.elems|
                    && forall i | 0 <= i < |l.elems| :: Some(w.elems[i]) == l.elems[i])
    ensures r.Err? ==> CreateError(s) == Some(r.error)
  {
    r := BuildCreateInput(s);
    if r.Ok? {
      SettingsOnTheWire(s);
      HooksOnTheWire(s.lifecycleHooks);
      TrafficOnTheWire(s.trafficSources);
    }
  }

  method BuildUpdateInput(s: Spec) returns (r: Result<Wire.UpdateInput, NumberField>)
    requires SettingsFilled(s)
    ensures r.Ok? <==> SettingsFit(s)
    ensures r.Ok? ==> r.value == UpdateInputOf(s)
    ensures r.Err? ==> UpdateError(s) == Some(r.error)
  {
    var defaultCooldown :- NarrowField(DefaultCooldown, s.defaultCooldown);
    var defaultInstanceWarmup :- NarrowField(DefaultInstanceWarmup, s.defaultInstanceWarmup);
    var desiredCapacity :- NarrowField(DesiredCapacity, s.desiredCapacity);
    var healthCheckGracePeriod :- NarrowField(HealthCheckGracePeriod, s.healthCheckGracePeriod);
    var maintenance :- BuildMaintenance(s.instanceMaintenancePolicy);
    var maxInstanceLifetime :- NarrowField(MaxInstanceLifetime, s.maxInstanceLifetime);
    var maxSize :- NarrowField(MaxSize, s.maxSize);
    var minSize :- NarrowField(MinSize, s.minSize);
    var mixed :- BuildMixed(s.mixedInstancesPolicy);
    var settings := Wire.Settings(
      s.name, EncodeDistributionOfZones(s.availabilityZoneDistribution),
      EncodeImpairment(s.availabilityZoneImpairmentPolicy), FillStrings(s.availabilityZones),
      s.capacityRebalance, EncodeReservation(s.capacityReservationSpecification), defaultCooldown,
      defaultInstanceWarmup, desiredCapacity, s.desiredCapacityType, healthCheckGracePeriod,
      s.healthCheckType, EncodeLifecyclePolicy(s.instanceLifecyclePolicy), maintenance,
      s.launchConfigurationName, s.launchTemplate, maxInstanceLifetime, maxSize, minSize, mixed,
      s.newInstancesProtectedFromScaleIn, s.placementGroup, s.serviceLinkedRoleARN,
      FillStrings(s.terminationPolicies), s.vpcZoneIdentifier);
    return Ok(Wire.UpdateInput(settings, s.skipZonalShiftValidation));
  }

  /** The update builder leaves out the instance, the hooks, the tags, the load balancers, the target
      groups and the traffic sources, so numbers in hooks do not stop it. */
  method NewUpdateRequestPayload(s: Spec) returns (r: Result<Wire.UpdateInput, NumberField>)
    requires SettingsFilled(s)
    ensures r.Ok? <==> SettingsFit(s)
    ensures r.Ok? ==> r.value == UpdateInputOf(s)
    ensures r.Ok? ==>
              var w := r.value.settings;
              && w.name == s.name && w.capacityRebalance == s.capacityRebalance
              && w.defaultCooldown == s.defaultCooldown && w.defaultInstanceWarmup == s.defaultInstanceWarmup
              && w.desiredCapacity == s.desiredCapacity && w.desiredCapacityType == s.desiredCapacityType
              && w.healthCheckGracePeriod == s.healthCheckGracePeriod && w.healthCheckType == s.healthCheckType
              && w.launchConfigurationName == s.launchConfigurationName && w.launchTemplate == s.launchTemplate
              && w.maxInstanceLifetime == s.maxInstanceLifetime && w.maxSize == s.maxSize && w.minSize == s.minSize
              && w.newInstancesProtectedFromScaleIn == s.newInstancesProtectedFromScaleIn
              && w.placementGroup == s.placementGroup && w.serviceLinkedRoleARN == s.serviceLinkedRoleARN
              && w.vpcZoneIdentifier == s.vpcZoneIdentifier
    ensures r.Ok? ==>
              var w := r.value.settings;
              && w.availabilityZoneDistribution == EncodeDistributionOfZones(s.availabilityZoneDistribution)
              && w.availabilityZoneImpairmentPolicy == EncodeImpairment(s.availabilityZoneImpairmentPolicy)
              && w.availabilityZones == FillStrings(s.availabilityZones)
              && w.capacityReservationSpecification == EncodeReservation(s.capacityReservationSpecification)
              && w.instanceLifecyclePolicy == EncodeLifecyclePolicy(s.instanceLifecyclePolicy)
              && w.instanceMaintenancePolicy == EncodeMaintenance(s.instanceMaintenancePolicy)
              && w.mixedInstancesPolicy == EncodeMixed(s.mixedInstancesPolicy)
              && w.terminationPolicies == FillStrings(s.terminationPolicies)
    ensures r.Ok? ==> r.value.skipZonalShiftValidation == s.skipZonalShiftValidation
    ensures r.Err? ==> UpdateError(s) == Some(r.error)
  {
    r := BuildUpdateInput(s);
    if r.Ok? {
      SettingsOnTheWire(s);
    }
  }
}
