/** `newResourceDelta` (delta.go) as it runs: one report object that a long sequence of comparisons adds
    to. Each step adds exactly what ResourceDelta says of its field. */
module Comparison {
  import opened Basics
  import opened Codec
  import opened ResourceDelta
  import opened TagLists
  import Api
  import Resource

  class Delta {
    var differences: seq<Path>

    constructor ()
      ensures differences == []
    {
      differences := [];
    }

    method Add(p: Path)
      modifies this
      ensures differences == old(differences) + [p]
    {
      differences := differences + [p];
    }
  }

  // ---- one field ----------------------------------------------------------------------------

  method CompareScalar<T(==)>(delta: Delta, at: Path, a: Option<T>, b: Option<T>)
    modifies delta
    ensures delta.differences == old(delta.differences) + Report(a != b, at)
  {
    if a.Some? != b.Some? {
      delta.Add(at);
    } else if a.Some? && b.Some? {
      if a.value != b.value {
        delta.Add(at);
      }
    }
  }

  method CompareStrings(delta: Delta, at: Path, a: Api.StringList, b: Api.StringList, eq: StringsEq)
    modifies delta
    ensures delta.differences == old(delta.differences) + Report(!SameStrings(a, b, eq), at)
  {
    if |a.Items()| != |b.Items()| {
      delta.Add(at);
    } else if |a.Items()| > 0 {
      if !eq(a.Items(), b.Items()) {
        delta.Add(at);
      }
    }
  }

  method CompareItems<T(==)>(delta: Delta, at: Path, a: Slice<T>, b: Slice<T>)
    modifies delta
    ensures delta.differences == old(delta.differences) + Report(ItemsDiffer(a, b), at)
  {
    if |a.Items()| != |b.Items()| {
      delta.Add(at);
    } else if |a.Items()| > 0 {
      if Normal(a) != Normal(b) {
        delta.Add(at);
      }
    }
  }

  method CompareRefs(delta: Delta, at: Path, a: Slice<Option<Api.Reference>>, b: Slice<Option<Api.Reference>>)
    modifies delta
    ensures delta.differences == old(delta.differences) + Report(Normal(a) != Normal(b), at)
  {
    if Normal(a) != Normal(b) {
      delta.Add(at);
    }
  }

  method CompareTags(delta: Delta, at: Path, a: Slice<Api.Tag>, b: Slice<Api.Tag>)
    modifies delta
    ensures delta.differences == old(delta.differences) + Report(TagMap(a.Items()) != TagMap(b.Items()), at)
  {
    var desired, _ := ConvertToOrderedACKTags(a.Items());
    var latest, _ := ConvertToOrderedACKTags(b.Items());
    if desired.entries != latest.entries {
      delta.Add(at);
    }
  }

  method CompareZones(delta: Delta, a: Option<Api.AvailabilityZoneDistribution>,
                      b: Option<Api.AvailabilityZoneDistribution>)
    modifies delta
    ensures delta.differences == old(delta.differences) + ZonesDelta(a, b)
  {
    if a.Some? != b.Some? {
      delta.Add(At(AvailabilityZoneDistribution, Here));
    } else if a.Some? && b.Some? {
      CompareScalar(delta, At(AvailabilityZoneDistribution, Under(CapacityDistributionStrategy)),
                    a.value.capacityDistributionStrategy, b.value.capacityDistributionStrategy);
    }
  }

  method CompareImpairment(delta: Delta, a: Option<Api.AvailabilityZoneImpairmentPolicy>,
                           b: Option<Api.AvailabilityZoneImpairmentPolicy>)
    modifies delta
    ensures delta.differences == old(delta.differences) + ImpairmentDelta(a, b)
  {
    if a.Some? != b.Some? {
      delta.Add(At(AvailabilityZoneImpairmentPolicy, Here));
    } else if a.Some? && b.Some? {
      CompareScalar(delta, At(AvailabilityZoneImpairmentPolicy, Under(ImpairedZoneHealthCheckBehavior)),
                    a.value.impairedZoneHealthCheckBehavior, b.value.impairedZoneHealthCheckBehavior);
      CompareScalar(delta, At(AvailabilityZoneImpairmentPolicy, Under(ZonalShiftEnabled)),
                    a.value.zonalShiftEnabled, b.value.zonalShiftEnabled);
    }
  }

  method CompareReservation(delta: Delta, a: Option<Api.CapacityReservationSpecification>,
                            b: Option<Api.CapacityReservationSpecification>, eq: StringsEq)
    modifies delta
    ensures delta.differences == old(delta.differences) + ReservationDelta(a, b, eq)
  {
    if a.Some? != b.Some? {
      delta.Add(At(CapacityReservationSpecification, Here));
    } else if a.Some? && b.Some? {
      CompareScalar(delta, At(CapacityReservationSpecification, Under(CapacityReservationPreference)),
                    a.value.capacityReservationPreference, b.value.capacityReservationPreference);
      CompareReservationTarget(delta, a.value.capacityReservationTarget, b.value.capacityReservationTarget, eq);
    }
  }

  method CompareReservationTarget(delta: Delta, a: Option<Api.CapacityReservationTarget>,
                                  b: Option<Api.CapacityReservationTarget>, eq: StringsEq)
    modifies delta
    ensures delta.differences == old(delta.differences) + TargetDelta(a, b, eq)
  {
    if a.Some? != b.Some? {
      delta.Add(At(CapacityReservationSpecification, Under(CapacityReservationTarget)));
    } else if a.Some? && b.Some? {
      CompareStrings(delta,
                     At(CapacityReservationSpecification, Under2(CapacityReservationTarget, CapacityReservationIDs)),
                     a.value.capacityReservationIDs, b.value.capacityReservationIDs, eq);
      CompareStrings(delta, At(CapacityReservationSpecification,
                               Under2(CapacityReservationTarget, CapacityReservationResourceGroupARNs)),
                     a.value.capacityReservationResourceGroupARNs, b.value.capacityReservationResourceGroupARNs, eq);
    }
  }

  method CompareLifecycle(delta: Delta, a: Option<Api.InstanceLifecyclePolicy>, b: Option<Api.InstanceLifecyclePolicy>)
    modifies delta
    ensures delta.differences == old(delta.differences) + LifecycleDelta(a, b)
  {
    if a.Some? != b.Some? {
      delta.Add(At(InstanceLifecyclePolicy, Here));
    } else if a.Some? && b.Some? {
      var x, y := a.value.retentionTriggers, b.value.retentionTriggers;
      if x.Some? != y.Some? {
        delta.Add(At(InstanceLifecyclePolicy, Under(RetentionTriggers)));
      } else if x.Some? && y.Some? {
        CompareScalar(delta, At(InstanceLifecyclePolicy, Under2(RetentionTriggers, TerminateHookAbandon)),
                      x.value.terminateHookAbandon, y.value.terminateHookAbandon);
      }
    }
  }

  method CompareMaintenance(delta: Delta, a: Option<Api.InstanceMaintenancePolicy>,
                            b: Option<Api.InstanceMaintenancePolicy>)
    modifies delta
    ensures delta.differences == old(delta.differences) + MaintenanceDelta(a, b)
  {
    if a.Some? != b.Some? {
      delta.Add(At(InstanceMaintenancePolicy, Here));
    } else if a.Some? && b.Some? {
      CompareScalar(delta, At(InstanceMaintenancePolicy, Under(MaxHealthyPercentage)),
                    a.value.maxHealthyPercentage, b.value.maxHealthyPercentage);
      CompareScalar(delta, At(InstanceMaintenancePolicy, Under(MinHealthyPercentage)),
                    a.value.minHealthyPercentage, b.value.minHealthyPercentage);
    }
  }

  method CompareTemplate(delta: Delta, at: Path, nameAt: Path, versionAt: Path,
                         a: Option<Api.LaunchTemplateSpecification>,
                         b: Option<Api.LaunchTemplateSpecification>)
    modifies delta
    ensures delta.differences == old(delta.differences) + TemplateDelta(at, nameAt, versionAt, a, b)
  {
    if a.Some? != b.Some? {
      delta.Add(at);
    } else if a.Some? && b.Some? {
      CompareScalar(delta, nameAt, a.value.launchTemplateName, b.value.launchTemplateName);
      CompareScalar(delta, versionAt, a.value.version, b.value.version);
    }
  }

  method CompareDistributed<T(==)>(delta: Delta, n: Name, a: Option<T>, b: Option<T>)
    modifies delta
    ensures delta.differences == old(delta.differences) + DistributedReport(a != b, n)
  {
    CompareScalar(delta, At(MixedInstancesPolicy, Under2(Name.InstancesDistribution, n)), a, b);
  }

  lemma Associative(d: seq<Path>, e: seq<Path>, f: seq<Path>)
    ensures d + e + f == d + (e + f)
  {
  }

  method CompareDistributionFields(delta: Delta, x: Api.InstancesDistribution, y: Api.InstancesDistribution)
    modifies delta
    ensures delta.differences == old(delta.differences) + DistributedDelta(x, y)
  {
    ghost var d := delta.differences;
    ghost var r0 := DistributedReport(x.onDemandAllocationStrategy != y.onDemandAllocationStrategy,
                                      OnDemandAllocationStrategy);
    ghost var r1 := DistributedReport(x.onDemandBaseCapacity != y.onDemandBaseCapacity, OnDemandBaseCapacity);
    ghost var r2 := DistributedReport(x.onDemandPercentageAboveBaseCapacity != y.onDemandPercentageAboveBaseCapacity,
                                      OnDemandPercentageAboveBaseCapacity);
    ghost var r3 := DistributedReport(x.spotAllocationStrategy != y.spotAllocationStrategy, SpotAllocationStrategy);
    ghost var r4 := DistributedReport(x.spotInstancePools != y.spotInstancePools, SpotInstancePools);
    ghost var r5 := DistributedReport(x.spotMaxPrice != y.spotMaxPrice, SpotMaxPrice);
    CompareDistributed(delta, OnDemandAllocationStrategy, x.onDemandAllocationStrategy, y.onDemandAllocationStrategy);
    CompareDistributed(delta, OnDemandBaseCapacity, x.onDemandBaseCapacity, y.onDemandBaseCapacity);
    Associative(d, r0, r1);
    CompareDistributed(delta, OnDemandPercentageAboveBaseCapacity, x.onDemandPercentageAboveBaseCapacity,
                       y.onDemandPercentageAboveBaseCapacity);
    Associative(d, r0 + r1, r2);
    CompareDistributed(delta, SpotAllocationStrategy, x.spotAllocationStrategy, y.spotAllocationStrategy);
    Associative(d, r0 + r1 + r2, r3);
    CompareDistributed(delta, SpotInstancePools, x.spotInstancePools, y.spotInstancePools);
    Associative(d, r0 + r1 + r2 + r3, r4);
    CompareDistributed(delta, SpotMaxPrice, x.spotMaxPrice, y.spotMaxPrice);
    Associative(d, r0 + r1 + r2 + r3 + r4, r5);
  }

  method CompareDistribution(delta: Delta, a: Option<Api.InstancesDistribution>, b: Option<Api.InstancesDistribution>)
    modifies delta
    ensures delta.differences == old(delta.differences) + DistributionDelta(a, b)
  {
    if a.Some? != b.Some? {
      delta.Add(At(MixedInstancesPolicy, Under(Name.InstancesDistribution)));
    } else if a.Some? && b.Some? {
      CompareDistributionFields(delta, a.value, b.value);
    }
  }

  method CompareMixedTemplate(delta: Delta, a: Option<Api.LaunchTemplate>, b: Option<Api.LaunchTemplate>)
    modifies delta
    ensures delta.differences == old(delta.differences) + MixedTemplateDelta(a, b)
  {
    if a.Some? != b.Some? {
      delta.Add(At(MixedInstancesPolicy, Under(Template)));
    } else if a.Some? && b.Some? {
      var x, y := a.value, b.value;
      CompareTemplate(delta, At(MixedInstancesPolicy, Under2(Template, Name.LaunchTemplateSpecification)),
                      At(MixedInstancesPolicy, Under3(Template, Name.LaunchTemplateSpecification, LaunchTemplateName)),
                      At(MixedInstancesPolicy, Under3(Template, Name.LaunchTemplateSpecification, Version)),
                      x.launchTemplateSpecification, y.launchTemplateSpecification);
      if |x.overrides.Items()| != |y.overrides.Items()| {
        delta.Add(At(MixedInstancesPolicy, Under2(Template, Overrides)));
      } else if |x.overrides.Items()| > 0 {
        if NormalOverrides(x.overrides) != NormalOverrides(y.overrides) {
          delta.Add(At(MixedInstancesPolicy, Under2(Template, Overrides)));
        }
      }
    }
  }

  method CompareMixed(delta: Delta, a: Option<Api.MixedInstancesPolicy>, b: Option<Api.MixedInstancesPolicy>)
    modifies delta
    ensures delta.differences == old(delta.differences) + MixedDelta(a, b)
  {
    if a.Some? != b.Some? {
      delta.Add(At(MixedInstancesPolicy, Here));
    } else if a.Some? && b.Some? {
      CompareDistribution(delta, a.value.instancesDistribution, b.value.instancesDistribution);
      CompareMixedTemplate(delta, a.value.launchTemplate, b.value.launchTemplate);
    }
  }

  // ---- one field of the spec ----------------------------------------------------------------

  /** A pointer field: different when one is nil and the other is not, or when both are set to different
      values. References are compared whole. */
  method ComparePointer(delta: Delta, f: Field, a: Api.Spec, b: Api.Spec, eq: StringsEq)
    requires !Nested(f) && !Listed(f)
    modifies delta
    ensures delta.differences == old(delta.differences) + FieldDelta(f, a, b, eq)
  {
    var x, y := ScalarAt(f, a), ScalarAt(f, b);
    KindOfScalar(f, a, b);
    hide ScalarAt, NestedDelta, ListDiffers;
    if x.Ref? || y.Ref? {
      if x != y {
        delta.Add(At(f, Here));
      }
    } else if IsSet(x) != IsSet(y) {
      delta.Add(At(f, Here));
    } else if IsSet(x) && IsSet(y) {
      if x != y {
        delta.Add(At(f, Here));
      }
    }
  }

  /** Both sides of a pointer field have the same type. */
  lemma KindOfScalar(f: Field, a: Api.Spec, b: Api.Spec)
    requires !Nested(f) && !Listed(f)
    ensures var x, y := ScalarAt(f, a), ScalarAt(f, b);
            (x.Text? <==> y.Text?) && (x.Number? <==> y.Number?) && (x.Flag? <==> y.Flag?) && (x.Ref? <==> y.Ref?)
  {
  }

  /** A list field. */
  method CompareList(delta: Delta, f: Field, a: Api.Spec, b: Api.Spec, eq: StringsEq)
    requires Listed(f)
    modifies delta
    ensures delta.differences == old(delta.differences) + FieldDelta(f, a, b, eq)
  {
    hide NestedDelta, ScalarAt, SameStrings, ItemsDiffer, TagMap;
    match f
    case AvailabilityZones => CompareStrings(delta, At(f, Here), a.availabilityZones, b.availabilityZones, eq);
    case LifecycleHookSpecificationList => CompareItems(delta, At(f, Here), a.lifecycleHooks, b.lifecycleHooks);
    case LoadBalancerNames => CompareStrings(delta, At(f, Here), a.loadBalancerNames, b.loadBalancerNames, eq);
    case Tags => CompareTags(delta, At(f, Here), a.tags, b.tags);
    case TargetGroupARNs => CompareStrings(delta, At(f, Here), a.targetGroupARNs, b.targetGroupARNs, eq);
    case TargetGroupRefs => CompareRefs(delta, At(f, Here), a.targetGroupRefs, b.targetGroupRefs);
    case TerminationPolicies => CompareStrings(delta, At(f, Here), a.terminationPolicies, b.terminationPolicies, eq);
    case TrafficSources => CompareItems(delta, At(f, Here), a.trafficSources, b.trafficSources);
  }

  /** A field that holds a struct. */
  method CompareStruct(delta: Delta, f: Field, a: Api.Spec, b: Api.Spec, eq: StringsEq)
    requires Nested(f)
    modifies delta
    ensures delta.differences == old(delta.differences) + FieldDelta(f, a, b, eq)
  {
    hide ListDiffers, ScalarAt, ZonesDelta, ImpairmentDelta, ReservationDelta, LifecycleDelta, MaintenanceDelta,
         MixedDelta;
    match f
    case AvailabilityZoneDistribution =>
      CompareZones(delta, a.availabilityZoneDistribution, b.availabilityZoneDistribution);
    case AvailabilityZoneImpairmentPolicy =>
      CompareImpairment(delta, a.availabilityZoneImpairmentPolicy, b.availabilityZoneImpairmentPolicy);
    case CapacityReservationSpecification =>
      CompareReservation(delta, a.capacityReservationSpecification, b.capacityReservationSpecification, eq);
    case InstanceLifecyclePolicy => CompareLifecycle(delta, a.instanceLifecyclePolicy, b.instanceLifecyclePolicy);
    case InstanceMaintenancePolicy =>
      CompareMaintenance(delta, a.instanceMaintenancePolicy, b.instanceMaintenancePolicy);
    case LaunchTemplate =>
      CompareTemplate(delta, At(f, Here), At(f, Under(LaunchTemplateName)), At(f, Under(Version)),
                      a.launchTemplate, b.launchTemplate);
    case MixedInstancesPolicy => CompareMixed(delta, a.mixedInstancesPolicy, b.mixedInstancesPolicy);
  }

  // ---- the fields in order ------------------------------------------------------------------

  /** The 35 comparisons, in the order of the code. */
  method CompareSpecs(delta: Delta, a: Api.Spec, b: Api.Spec, eq: StringsEq)
    requires delta.differences == []
    modifies delta
    ensures delta.differences == SpecDelta(a, b, eq)
  {
    hide FieldAt, FieldDelta;
    for i := 0 to FIELD_COUNT
      invariant delta.differences == Joined(i, Part(a, b, eq))
    {
      var f := FieldAt(i);
      if Nested(f) {
        CompareStruct(delta, f, a, b, eq);
      } else if Listed(f) {
        CompareList(delta, f, a, b, eq);
      } else {
        ComparePointer(delta, f, a, b, eq);
      }
    }
  }

  /** `newResourceDelta` (delta.go) dereferences both resources unless exactly one is nil. */
  method NewResourceDelta(a: Resource.AutoScalingGroup?, b: Resource.AutoScalingGroup?, eq: StringsEq)
    returns (delta: Delta)
    requires a != null || b != null
    ensures fresh(delta)
    ensures delta.differences == if a == null || b == null then [Whole] else SpecDelta(a.spec, b.spec, eq)
  {
    delta := new Delta();
    if (a == null && b != null) || (a != null && b == null) {
      delta.Add(Whole);
      return;
    }
    CompareSpecs(delta, a.spec, b.spec, eq);
  }
}
