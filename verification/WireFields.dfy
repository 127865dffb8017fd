/** What a request carries, field by field: every field of the wire's structs against the field of the
    spec that goes by its name. With the round trips this fixes the reader as well. */
module WireFields {
  import opened Basics
  import opened Api
  import opened Codec
  import opened GroupShapes
  import Wire

  // ---- leaves -------------------------------------------------------------------------------

  /** A number with 32 bits is sent as the integer it is, and read as such. */
  lemma NumbersAreSentAsTheyAre(v: Option<int64>, w: Option<int32>)
    ensures Fits(v) <==> v.None? || -2147483648 <= v.value <= 2147483647
    ensures Fits(v) ==> Narrowed(v) == v
    ensures Widened(w) == w
  {
  }

  lemma EnumsAreSentAsTheyAre(s: Option<string>, w: string)
    ensures s.Some? ==> EncodeEnum(s) == s.value
    ensures s.None? ==> EncodeEnum(s) == ""
    ensures DecodeEnum(w) == if w == "" then None else Some(w)
  {
  }

  lemma StringsAreSentAsTheyAre(l: StringList, w: Slice<string>)
    ensures FillStrings(l).NilSlice? <==> l.NilSlice?
    ensures l.Elems? ==>
              && |FillStrings(l).elems| == |l.elems|
              && forall i | 0 <= i < |l.elems| ::
                   FillStrings(l).elems[i] == if l.elems[i].Some? then l.elems[i].value else ""
    ensures PointStrings(w).NilSlice? <==> w.NilSlice?
    ensures w.Elems? ==>
              && |PointStrings(w).elems| == |w.elems|
              && forall i | 0 <= i < |w.elems| :: PointStrings(w).elems[i] == Some(w.elems[i])
  {
  }

  // ---- structs below the settings -----------------------------------------------------------

  lemma ZonesOnTheWire(o: Option<AvailabilityZoneDistribution>)
    ensures var w := EncodeDistributionOfZones(o);
            && (w.Some? <==> o.Some?)
            && (o.Some? ==>
                  w.value.capacityDistributionStrategy == EncodeEnum(o.value.capacityDistributionStrategy))
  {
  }

  lemma ImpairmentOnTheWire(o: Option<AvailabilityZoneImpairmentPolicy>)
    ensures var w := EncodeImpairment(o);
            && (w.Some? <==> o.Some?)
            && (o.Some? ==>
                  && w.value.impairedZoneHealthCheckBehavior == EncodeEnum(o.value.impairedZoneHealthCheckBehavior)
                  && w.value.zonalShiftEnabled == o.value.zonalShiftEnabled)
  {
  }

  lemma ReservationOnTheWire(o: Option<CapacityReservationSpecification>)
    ensures var w := EncodeReservation(o);
            && (w.Some? <==> o.Some?)
            && (o.Some? ==>
                  && w.value.capacityReservationPreference == EncodeEnum(o.value.capacityReservationPreference)
                  && var t, v := o.value.capacityReservationTarget, w.value.capacityReservationTarget;
                  && (v.Some? <==> t.Some?)
                  && (t.Some? ==>
                        && v.value.capacityReservationIds == FillStrings(t.value.capacityReservationIDs)
                        && v.value.capacityReservationResourceGroupArns
                           == FillStrings(t.value.capacityReservationResourceGroupARNs)))
  {
  }

  lemma LifecycleOnTheWire(o: Option<InstanceLifecyclePolicy>)
    ensures var w := EncodeLifecyclePolicy(o);
            && (w.Some? <==> o.Some?)
            && (o.Some? ==>
                  && (w.value.retentionTriggers.Some? <==> o.value.retentionTriggers.Some?)
                  && (o.value.retentionTriggers.Some? ==>
                        w.value.retentionTriggers.value.terminateHookAbandon
                        == EncodeEnum(o.value.retentionTriggers.value.terminateHookAbandon)))
  {
  }

  lemma MaintenanceOnTheWire(o: Option<InstanceMaintenancePolicy>)
    requires MaintenanceFits(o)
    ensures var w := EncodeMaintenance(o);
            && (w.Some? <==> o.Some?)
            && (o.Some? ==>
                  && w.value.maxHealthyPercentage == o.value.maxHealthyPercentage
                  && w.value.minHealthyPercentage == o.value.minHealthyPercentage)
  {
  }

  lemma RangeOnTheWire(o: Option<IntRange>)
    requires RangeFits(o)
    ensures var w := EncodeRange(o);
            && (w.Some? <==> o.Some?)
            && (o.Some? ==> w.value.max == o.value.max && w.value.min == o.value.min)
  {
  }

  lemma DistributionOnTheWire(o: Option<InstancesDistribution>)
    requires DistributionFits(o)
    ensures var w := EncodeDistribution(o);
            && (w.Some? <==> o.Some?)
            && (o.Some? ==>
                  && w.value.onDemandAllocationStrategy == o.value.onDemandAllocationStrategy
                  && w.value.onDemandBaseCapacity == o.value.onDemandBaseCapacity
                  && w.value.onDemandPercentageAboveBaseCapacity == o.value.onDemandPercentageAboveBaseCapacity
                  && w.value.spotAllocationStrategy == o.value.spotAllocationStrategy
                  && w.value.spotInstancePools == o.value.spotInstancePools
                  && w.value.spotMaxPrice == o.value.spotMaxPrice)
  {
  }

  lemma FactorsOnTheWire(o: Option<BaselinePerformanceFactors>)
    requires FactorsFilled(o)
    ensures var w := EncodeFactors(o);
            && (w.Some? <==> o.Some?)
            && (o.Some? ==>
                  && (w.value.cpu.Some? <==> o.value.cpu.Some?)
                  && (o.value.cpu.Some? ==>
                        var l, v := o.value.cpu.value.references, w.value.cpu.value.references;
                        && (v.NilSlice? <==> l.NilSlice?)
                        && (l.Elems? ==>
                              && |v.elems| == |l.elems|
                              && forall i | 0 <= i < |l.elems| :: Some(v.elems[i]) == l.elems[i])))
  {
    if o.Some? && o.value.cpu.Some? && o.value.cpu.value.references.Elems? {
      var l := o.value.cpu.value.references;
      assert l.Items() == l.elems;
    }
  }

  // ---- the requirements block ---------------------------------------------------------------

  lemma RequirementsOnTheWire(o: Option<InstanceRequirements>)
    requires RequirementsFit(o) && o.Some?
    ensures EncodeRequirements(o).Some?
    ensures var q, w := o.value, EncodeRequirements(o).value;
            && w.acceleratorCount == EncodeRange(q.acceleratorCount)
            && w.acceleratorManufacturers == FillStrings(q.acceleratorManufacturers)
            && w.acceleratorNames == FillStrings(q.acceleratorNames)
            && w.acceleratorTotalMemoryMiB == EncodeRange(q.acceleratorTotalMemoryMiB)
            && w.acceleratorTypes == FillStrings(q.acceleratorTypes)
            && w.allowedInstanceTypes == FillStrings(q.allowedInstanceTypes)
            && w.bareMetal == EncodeEnum(q.bareMetal)
            && w.baselineEbsBandwidthMbps == EncodeRange(q.baselineEBSBandwidthMbps)
            && w.baselinePerformanceFactors == EncodeFactors(q.baselinePerformanceFactors)
            && w.burstablePerformance == EncodeEnum(q.burstablePerformance)
            && w.cpuManufacturers == FillStrings(q.cpuManufacturers)
            && w.excludedInstanceTypes == FillStrings(q.excludedInstanceTypes)
            && w.instanceGenerations == FillStrings(q.instanceGenerations)
            && w.localStorage == EncodeEnum(q.localStorage)
            && w.localStorageTypes == FillStrings(q.localStorageTypes)
            && w.maxSpotPriceAsPercentageOfOptimalOnDemandPrice == q.maxSpotPriceAsPercentageOfOptimalOnDemandPrice
            && w.memoryGiBPerVCpu == q.memoryGiBPerVCPU
            && w.memoryMiB == EncodeRange(q.memoryMiB)
            && w.networkBandwidthGbps == q.networkBandwidthGbps
            && w.networkInterfaceCount == EncodeRange(q.networkInterfaceCount)
            && w.onDemandMaxPricePercentageOverLowestPrice == q.onDemandMaxPricePercentageOverLowestPrice
            && w.requireHibernateSupport == q.requireHibernateSupport
            && w.spotMaxPricePercentageOverLowestPrice == q.spotMaxPricePercentageOverLowestPrice
            && w.totalLocalStorageGB == q.totalLocalStorageGB
            && w.vCpuCount == EncodeRange(q.vcpuCount)
  {
    hide EncodeRange, FillStrings, EncodeFactors, EncodeEnum;
  }

  lemma OverridesOnTheWire(l: Slice<Option<LaunchTemplateOverrides>>)
    requires OverridesFilled(l)
    ensures var w := EncodeOverrides(l);
            && (w.NilSlice? <==> l.NilSlice?)
            && (l.Elems? ==>
                  && |w.elems| == |l.elems|
                  && forall i | 0 <= i < |l.elems| ::
                       && l.elems[i].Some?
                       && w.elems[i].imageId == l.elems[i].value.imageID
                       && w.elems[i].instanceRequirements == EncodeRequirements(l.elems[i].value.instanceRequirements)
                       && w.elems[i].instanceType == l.elems[i].value.instanceType
                       && w.elems[i].launchTemplateSpecification == l.elems[i].value.launchTemplateSpecification
                       && w.elems[i].weightedCapacity == l.elems[i].value.weightedCapacity)
  {
    hide EncodeRequirements;
    if l.Elems? {
      assert l.Items() == l.elems;
    }
  }

  lemma MixedOnTheWire(o: Option<MixedInstancesPolicy>)
    ensures var w := EncodeMixed(o);
            && (w.Some? <==> o.Some?)
            && (o.Some? ==>
                  && w.value.instancesDistribution == EncodeDistribution(o.value.instancesDistribution)
                  && var t, v := o.value.launchTemplate, w.value.launchTemplate;
                  && (v.Some? <==> t.Some?)
                  && (t.Some? ==>
                        && v.value.launchTemplateSpecification == t.value.launchTemplateSpecification
                        && v.value.overrides == EncodeOverrides(t.value.overrides)))
  {
    hide EncodeOverrides, EncodeDistribution;
  }

  // ---- lists beside the settings ------------------------------------------------------------

  lemma HooksOnTheWire(l: Slice<LifecycleHookSpecification>)
    requires HooksFit(l)
    ensures var w := EncodeHooks(l);
            && (w.NilSlice? <==> l.NilSlice?)
            && (l.Elems? ==>
                  && |w.elems| == |l.elems|
                  && forall i | 0 <= i < |l.elems| ::
                       && w.elems[i].defaultResult == l.elems[i].defaultResult
                       && w.elems[i].heartbeatTimeout == l.elems[i].heartbeatTimeout
                       && w.elems[i].lifecycleHookName == l.elems[i].lifecycleHookName
                       && w.elems[i].lifecycleTransition == l.elems[i].lifecycleTransition
                       && w.elems[i].notificationMetadata == l.elems[i].notificationMetadata
                       && w.elems[i].notificationTargetARN == l.elems[i].notificationTargetARN
                       && w.elems[i].roleARN == l.elems[i].roleARN)
  {
    if l.Elems? {
      assert l.Items() == l.elems;
    }
  }

  lemma TrafficOnTheWire(l: Slice<Option<TrafficSource>>)
    requires NoNilSlots(l)
    ensures var w := EncodeTraffic(l);
            && (w.NilSlice? <==> l.NilSlice?)
            && (l.Elems? ==>
                  && |w.elems| == |l.elems|
                  && forall i | 0 <= i < |l.elems| :: Some(w.elems[i]) == l.elems[i])
  {
    if l.Elems? {
      assert l.Items() == l.elems;
    }
  }

  // ---- the settings -------------------------------------------------------------------------

  lemma SettingsOnTheWire(s: Spec)
    requires SettingsFit(s)
    ensures var w := SettingsOf(s);
            && w.name == s.name && w.capacityRebalance == s.capacityRebalance
            && w.defaultCooldown == s.defaultCooldown && w.defaultInstanceWarmup == s.defaultInstanceWarmup
            && w.desiredCapacity == s.desiredCapacity && w.desiredCapacityType == s.desiredCapacityType
            && w.healthCheckGracePeriod == s.healthCheckGracePeriod && w.healthCheckType == s.healthCheckType
            && w.launchConfigurationName == s.launchConfigurationName && w.launchTemplate == s.launchTemplate
            && w.maxInstanceLifetime == s.maxInstanceLifetime && w.maxSize == s.maxSize && w.minSize == s.minSize
            && w.newInstancesProtectedFromScaleIn == s.newInstancesProtectedFromScaleIn
            && w.placementGroup == s.placementGroup && w.serviceLinkedRoleARN == s.serviceLinkedRoleARN
            && w.vpcZoneIdentifier == s.vpcZoneIdentifier
    ensures var w := SettingsOf(s);
            && w.availabilityZoneDistribution == EncodeDistributionOfZones(s.availabilityZoneDistribution)
            && w.availabilityZoneImpairmentPolicy == EncodeImpairment(s.availabilityZoneImpairmentPolicy)
            && w.availabilityZones == FillStrings(s.availabilityZones)
            && w.capacityReservationSpecification == EncodeReservation(s.capacityReservationSpecification)
            && w.instanceLifecyclePolicy == EncodeLifecyclePolicy(s.instanceLifecyclePolicy)
            && w.instanceMaintenancePolicy == EncodeMaintenance(s.instanceMaintenancePolicy)
            && w.mixedInstancesPolicy == EncodeMixed(s.mixedInstancesPolicy)
            && w.terminationPolicies == FillStrings(s.terminationPolicies)
  {
    hide EncodeDistributionOfZones, EncodeImpairment, EncodeReservation, EncodeLifecyclePolicy, EncodeMaintenance,
         EncodeMixed, FillStrings, MaintenanceFits, MixedFits;
  }

  // ---- the number that is refused -----------------------------------------------------------

  /** Below the settings, the first number out of range, in the order of the fields; every Max and Min
      goes by that name alone. */
  lemma MisfitsBelow(range: Option<IntRange>, policy: Option<InstanceMaintenancePolicy>,
                     distribution: Option<InstancesDistribution>)
    ensures RangeError(range)
            == if range.None? then None
               else if !Fits(range.value.max) then Some(Max)
               else if !Fits(range.value.min) then Some(Min)
               else None
    ensures MaintenanceError(policy)
            == if policy.None? then None
               else if !Fits(policy.value.maxHealthyPercentage) then Some(MaxHealthyPercentage)
               else if !Fits(policy.value.minHealthyPercentage) then Some(MinHealthyPercentage)
               else None
    ensures DistributionError(distribution)
            == if distribution.None? then None
               else if !Fits(distribution.value.onDemandBaseCapacity) then Some(OnDemandBaseCapacity)
               else if !Fits(distribution.value.onDemandPercentageAboveBaseCapacity)
               then Some(OnDemandPercentageAboveBaseCapacity)
               else if !Fits(distribution.value.spotInstancePools) then Some(SpotInstancePools)
               else None
  {
  }

  lemma MisfitOfRequirements(o: Option<InstanceRequirements>)
    requires o.Some?
    ensures var q := o.value;
            RequirementsError(o)
            == if !RangeFits(q.acceleratorCount) then RangeError(q.acceleratorCount)
               else if !RangeFits(q.acceleratorTotalMemoryMiB) then RangeError(q.acceleratorTotalMemoryMiB)
               else if !RangeFits(q.baselineEBSBandwidthMbps) then RangeError(q.baselineEBSBandwidthMbps)
               else if !Fits(q.maxSpotPriceAsPercentageOfOptimalOnDemandPrice)
               then Some(MaxSpotPriceAsPercentageOfOptimalOnDemandPrice)
               else if !RangeFits(q.memoryMiB) then RangeError(q.memoryMiB)
               else if !RangeFits(q.networkInterfaceCount) then RangeError(q.networkInterfaceCount)
               else if !Fits(q.onDemandMaxPricePercentageOverLowestPrice)
               then Some(OnDemandMaxPricePercentageOverLowestPrice)
               else if !Fits(q.spotMaxPricePercentageOverLowestPrice)
               then Some(SpotMaxPricePercentageOverLowestPrice)
               else RangeError(q.vcpuCount)
  {
    hide RangeFits, Fits;
  }

  /** The number that a builder names is the first one out of range, in the order of the code; only the
      create builder looks at the hooks, and it does so half way. */
  lemma FirstMisfit(s: Spec)
    ensures CreateError(s)
            == if !Fits(s.defaultCooldown) then Some(DefaultCooldown)
               else if !Fits(s.defaultInstanceWarmup) then Some(DefaultInstanceWarmup)
               else if !Fits(s.desiredCapacity) then Some(DesiredCapacity)
               else if !Fits(s.healthCheckGracePeriod) then Some(HealthCheckGracePeriod)
               else if !MaintenanceFits(s.instanceMaintenancePolicy) then MaintenanceError(s.instanceMaintenancePolicy)
               else if exists i | 0 <= i < |s.lifecycleHooks.Items()| ::
                         !Fits(s.lifecycleHooks.Items()[i].heartbeatTimeout)
               then Some(HeartbeatTimeout)
               else UpdateError(s)
    ensures UpdateError(s)
            == if !Fits(s.defaultCooldown) then Some(DefaultCooldown)
               else if !Fits(s.defaultInstanceWarmup) then Some(DefaultInstanceWarmup)
               else if !Fits(s.desiredCapacity) then Some(DesiredCapacity)
               else if !Fits(s.healthCheckGracePeriod) then Some(HealthCheckGracePeriod)
               else if !MaintenanceFits(s.instanceMaintenancePolicy) then MaintenanceError(s.instanceMaintenancePolicy)
               else if !Fits(s.maxInstanceLifetime) then Some(MaxInstanceLifetime)
               else if !Fits(s.maxSize) then Some(MaxSize)
               else if !Fits(s.minSize) then Some(MinSize)
               else if s.mixedInstancesPolicy.None? then None
               else if !DistributionFits(s.mixedInstancesPolicy.value.instancesDistribution)
               then DistributionError(s.mixedInstancesPolicy.value.instancesDistribution)
               else if s.mixedInstancesPolicy.value.launchTemplate.None? then None
               else OverridesError(s.mixedInstancesPolicy.value.launchTemplate.value.overrides.Items())
  {
    hide Fits, MaintenanceFits, DistributionFits, OverridesFit, MaintenanceError, DistributionError, OverridesError;
  }

  // ---- the group that was read --------------------------------------------------------------

  lemma FoundFieldByField(s: Spec, g: Wire.Group)
    ensures var r, w := Found(s, g), g.settings;
            && r.name == w.name && r.capacityRebalance == w.capacityRebalance
            && r.defaultCooldown == w.defaultCooldown && r.defaultInstanceWarmup == w.defaultInstanceWarmup
            && r.desiredCapacity == w.desiredCapacity && r.desiredCapacityType == w.desiredCapacityType
            && r.healthCheckGracePeriod == w.healthCheckGracePeriod && r.healthCheckType == w.healthCheckType
            && r.launchConfigurationName == w.launchConfigurationName && r.launchTemplate == w.launchTemplate
            && r.maxInstanceLifetime == w.maxInstanceLifetime && r.maxSize == w.maxSize && r.minSize == w.minSize
            && r.newInstancesProtectedFromScaleIn == w.newInstancesProtectedFromScaleIn
            && r.placementGroup == w.placementGroup && r.serviceLinkedRoleARN == w.serviceLinkedRoleARN
            && r.tags == g.tags && r.vpcZoneIdentifier == w.vpcZoneIdentifier
    ensures var r, w := Found(s, g), g.settings;
            && r.availabilityZoneDistribution == DecodeDistributionOfZones(w.availabilityZoneDistribution)
            && r.availabilityZoneImpairmentPolicy == DecodeImpairment(w.availabilityZoneImpairmentPolicy)
            && r.availabilityZones == PointStrings(w.availabilityZones)
            && r.capacityReservationSpecification == DecodeReservation(w.capacityReservationSpecification)
            && r.instanceLifecyclePolicy == DecodeLifecyclePolicy(w.instanceLifecyclePolicy)
            && r.instanceMaintenancePolicy == DecodeMaintenance(w.instanceMaintenancePolicy)
            && r.loadBalancerNames == PointStrings(g.loadBalancerNames)
            && r.mixedInstancesPolicy == DecodeMixed(w.mixedInstancesPolicy)
            && r.targetGroupARNs == PointStrings(g.targetGroupARNs)
            && r.terminationPolicies == PointStrings(w.terminationPolicies)
            && r.trafficSources == DecodeTraffic(g.trafficSources)
    ensures var r := Found(s, g);
            && r.instanceID == s.instanceID && r.instanceRef == s.instanceRef && r.lifecycleHooks == s.lifecycleHooks
            && r.serviceLinkedRoleRef == s.serviceLinkedRoleRef && r.targetGroupRefs == s.targetGroupRefs
            && r.skipZonalShiftValidation == s.skipZonalShiftValidation
  {
    hide DecodeDistributionOfZones, DecodeImpairment, DecodeReservation, DecodeLifecyclePolicy, DecodeMaintenance,
         DecodeMixed, PointStrings, DecodeTraffic;
  }
}
