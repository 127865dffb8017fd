/** Which path stands for which field: every path that a comparison can report, against the fields of
    the two specs that it names. */
module DeltaPaths {
  import opened Basics
  import opened Codec
  import opened ResourceDelta
  import opened TagLists
  import Api

  lemma PathsBelow(f: Field, a: Api.Spec, b: Api.Spec, eq: StringsEq)
    ensures forall below :: At(f, below) in SpecDelta(a, b, eq) <==> At(f, below) in FieldDelta(f, a, b, eq)
  {
    hide SpecDelta, FieldDelta;
    forall below
      ensures At(f, below) in SpecDelta(a, b, eq) <==> At(f, below) in FieldDelta(f, a, b, eq)
    {
      Reported(a, b, eq, At(f, below));
    }
  }

  lemma FlatPath(f: Field, a: Api.Spec, b: Api.Spec, eq: StringsEq)
    requires !Nested(f)
    ensures At(f, Here) in SpecDelta(a, b, eq) <==>
              if Listed(f) then ListDiffers(f, a, b, eq) else ScalarAt(f, a) != ScalarAt(f, b)
  {
    hide SpecDelta, ListDiffers, ScalarAt;
    PathsBelow(f, a, b, eq);
  }

  /** A path into the nest comes from the part it leads into. */
  lemma MixedPart(a: Api.Spec, b: Api.Spec, eq: StringsEq, below: Place)
    ensures var p, x, y := At(MixedInstancesPolicy, below), a.mixedInstancesPolicy, b.mixedInstancesPolicy;
            && (below.Here? ==> (p in SpecDelta(a, b, eq) <==> (x.Some? <==> y.None?)))
            && (!below.Here? && below.x == Name.InstancesDistribution ==>
                  (p in SpecDelta(a, b, eq) <==>
                   && x.Some? && y.Some?
                   && p in DistributionDelta(x.value.instancesDistribution, y.value.instancesDistribution)))
            && (!below.Here? && below.x == Template ==>
                  (p in SpecDelta(a, b, eq) <==>
                   && x.Some? && y.Some?
                   && p in MixedTemplateDelta(x.value.launchTemplate, y.value.launchTemplate)))
  {
    hide SpecDelta, DistributionDelta, MixedTemplateDelta, PrefixFree;
    PathsBelow(MixedInstancesPolicy, a, b, eq);
    if a.mixedInstancesPolicy.Some? && b.mixedInstancesPolicy.Some? {
      var x, y := a.mixedInstancesPolicy.value, b.mixedInstancesPolicy.value;
      DistributionShape(x.instancesDistribution, y.instancesDistribution);
      MixedTemplateShape(x.launchTemplate, y.launchTemplate);
    }
  }

  /** A pointer field that is not a struct, and a reference, is reported exactly when it differs. */
  lemma PointerPath(f: Field, a: Api.Spec, b: Api.Spec, eq: StringsEq)
    ensures var reported := At(f, Here) in SpecDelta(a, b, eq);
            match f
            case CapacityRebalance => reported <==> a.capacityRebalance != b.capacityRebalance
            case DefaultCooldown => reported <==> a.defaultCooldown != b.defaultCooldown
            case DefaultInstanceWarmup => reported <==> a.defaultInstanceWarmup != b.defaultInstanceWarmup
            case DesiredCapacity => reported <==> a.desiredCapacity != b.desiredCapacity
            case DesiredCapacityType => reported <==> a.desiredCapacityType != b.desiredCapacityType
            case HealthCheckGracePeriod => reported <==> a.healthCheckGracePeriod != b.healthCheckGracePeriod
            case HealthCheckType => reported <==> a.healthCheckType != b.healthCheckType
            case InstanceID => reported <==> a.instanceID != b.instanceID
            case InstanceRef => reported <==> a.instanceRef != b.instanceRef
            case LaunchConfigurationName => reported <==> a.launchConfigurationName != b.launchConfigurationName
            case MaxInstanceLifetime => reported <==> a.maxInstanceLifetime != b.maxInstanceLifetime
            case MaxSize => reported <==> a.maxSize != b.maxSize
            case MinSize => reported <==> a.minSize != b.minSize
            case Name => reported <==> a.name != b.name
            case NewInstancesProtectedFromScaleIn =>
              reported <==> a.newInstancesProtectedFromScaleIn != b.newInstancesProtectedFromScaleIn
            case PlacementGroup => reported <==> a.placementGroup != b.placementGroup
            case ServiceLinkedRoleARN => reported <==> a.serviceLinkedRoleARN != b.serviceLinkedRoleARN
            case ServiceLinkedRoleRef => reported <==> a.serviceLinkedRoleRef != b.serviceLinkedRoleRef
            case SkipZonalShiftValidation => reported <==> a.skipZonalShiftValidation != b.skipZonalShiftValidation
            case VPCZoneIdentifier => reported <==> a.vpcZoneIdentifier != b.vpcZoneIdentifier
            case _ => true
  {
    hide SpecDelta, FieldDelta, ListDiffers;
    if !Nested(f) && !Listed(f) {
      FlatPath(f, a, b, eq);
    }
  }

  /** A list is reported exactly when its elements differ, by the rule of its kind; nil and empty lists are
      not told apart. */
  lemma ListPath(f: Field, a: Api.Spec, b: Api.Spec, eq: StringsEq)
    ensures var reported := At(f, Here) in SpecDelta(a, b, eq);
            match f
            case AvailabilityZones =>
              var x, y := a.availabilityZones.Items(), b.availabilityZones.Items();
              reported <==> |x| != |y| || (x != [] && !eq(x, y))
            case LoadBalancerNames =>
              var x, y := a.loadBalancerNames.Items(), b.loadBalancerNames.Items();
              reported <==> |x| != |y| || (x != [] && !eq(x, y))
            case TargetGroupARNs =>
              var x, y := a.targetGroupARNs.Items(), b.targetGroupARNs.Items();
              reported <==> |x| != |y| || (x != [] && !eq(x, y))
            case TerminationPolicies =>
              var x, y := a.terminationPolicies.Items(), b.terminationPolicies.Items();
              reported <==> |x| != |y| || (x != [] && !eq(x, y))
            case LifecycleHookSpecificationList => reported <==> a.lifecycleHooks.Items() != b.lifecycleHooks.Items()
            case TargetGroupRefs => reported <==> a.targetGroupRefs.Items() != b.targetGroupRefs.Items()
            case TrafficSources => reported <==> a.trafficSources.Items() != b.trafficSources.Items()
            case Tags => reported <==> TagMap(a.tags.Items()) != TagMap(b.tags.Items())
            case _ => true
  {
    hide SpecDelta, FieldDelta, ScalarAt, TagMap;
    if Listed(f) {
      FlatPath(f, a, b, eq);
    }
  }

  /** A struct is reported as a whole exactly when one side has it and the other has not. */
  lemma StructPath(f: Field, a: Api.Spec, b: Api.Spec, eq: StringsEq)
    ensures var reported := At(f, Here) in SpecDelta(a, b, eq);
            match f
            case AvailabilityZoneDistribution =>
              reported <==> (a.availabilityZoneDistribution.Some? <==> b.availabilityZoneDistribution.None?)
            case AvailabilityZoneImpairmentPolicy =>
              reported <==> (a.availabilityZoneImpairmentPolicy.Some? <==> b.availabilityZoneImpairmentPolicy.None?)
            case CapacityReservationSpecification =>
              reported <==> (a.capacityReservationSpecification.Some? <==> b.capacityReservationSpecification.None?)
            case InstanceLifecyclePolicy =>
              reported <==> (a.instanceLifecyclePolicy.Some? <==> b.instanceLifecyclePolicy.None?)
            case InstanceMaintenancePolicy =>
              reported <==> (a.instanceMaintenancePolicy.Some? <==> b.instanceMaintenancePolicy.None?)
            case LaunchTemplate => reported <==> (a.launchTemplate.Some? <==> b.launchTemplate.None?)
            case MixedInstancesPolicy => reported <==> (a.mixedInstancesPolicy.Some? <==> b.mixedInstancesPolicy.None?)
            case _ => true
  {
    hide SpecDelta, SameStrings, MixedDelta;
    if f == MixedInstancesPolicy {
      MixedPart(a, b, eq, Here);
    } else if Nested(f) {
      PathsBelow(f, a, b, eq);
    }
  }

  // ---- struct fields ------------------------------------------------------------------------

  /** Below a struct that both sides have, each name is reported exactly when its values differ. */
  lemma ZonesPaths(a: Api.Spec, b: Api.Spec, eq: StringsEq)
    ensures var d, x, y := SpecDelta(a, b, eq), a.availabilityZoneDistribution, b.availabilityZoneDistribution;
            && (At(AvailabilityZoneDistribution, Under(CapacityDistributionStrategy)) in d <==>
                  x.Some? && y.Some? && x.value.capacityDistributionStrategy != y.value.capacityDistributionStrategy)
  {
    hide SpecDelta, ScalarAt, ListDiffers;
    PathsBelow(AvailabilityZoneDistribution, a, b, eq);
  }

  lemma ImpairmentPaths(a: Api.Spec, b: Api.Spec, eq: StringsEq)
    ensures var d, x, y := SpecDelta(a, b, eq), a.availabilityZoneImpairmentPolicy, b.availabilityZoneImpairmentPolicy;
            && (At(AvailabilityZoneImpairmentPolicy, Under(ImpairedZoneHealthCheckBehavior)) in d <==>
                  x.Some? && y.Some? &&
                  x.value.impairedZoneHealthCheckBehavior != y.value.impairedZoneHealthCheckBehavior)
            && (At(AvailabilityZoneImpairmentPolicy, Under(ZonalShiftEnabled)) in d <==>
                  x.Some? && y.Some? && x.value.zonalShiftEnabled != y.value.zonalShiftEnabled)
  {
    hide SpecDelta, ScalarAt, ListDiffers;
    PathsBelow(AvailabilityZoneImpairmentPolicy, a, b, eq);
  }

  lemma ReservationPaths(a: Api.Spec, b: Api.Spec, eq: StringsEq)
    ensures var d, x, y := SpecDelta(a, b, eq), a.capacityReservationSpecification, b.capacityReservationSpecification;
            && (At(CapacityReservationSpecification, Under(CapacityReservationPreference)) in d <==>
                  x.Some? && y.Some? && x.value.capacityReservationPreference != y.value.capacityReservationPreference)
            && (At(CapacityReservationSpecification, Under(CapacityReservationTarget)) in d <==>
                  && x.Some? && y.Some?
                  && (x.value.capacityReservationTarget.Some? <==> y.value.capacityReservationTarget.None?))
            && (At(CapacityReservationSpecification, Under2(CapacityReservationTarget, CapacityReservationIDs))
                in d <==>
                  && x.Some? && y.Some?
                  && x.value.capacityReservationTarget.Some? && y.value.capacityReservationTarget.Some?
                  && !SameStrings(x.value.capacityReservationTarget.value.capacityReservationIDs,
                                  y.value.capacityReservationTarget.value.capacityReservationIDs, eq))
            && (At(CapacityReservationSpecification,
                   Under2(CapacityReservationTarget, CapacityReservationResourceGroupARNs)) in d <==>
                  && x.Some? && y.Some?
                  && x.value.capacityReservationTarget.Some? && y.value.capacityReservationTarget.Some?
                  && !SameStrings(x.value.capacityReservationTarget.value.capacityReservationResourceGroupARNs,
                                  y.value.capacityReservationTarget.value.capacityReservationResourceGroupARNs, eq))
  {
    hide SpecDelta, ScalarAt, ListDiffers, SameStrings;
    PathsBelow(CapacityReservationSpecification, a, b, eq);
  }

  lemma LifecyclePaths(a: Api.Spec, b: Api.Spec, eq: StringsEq)
    ensures var d, x, y := SpecDelta(a, b, eq), a.instanceLifecyclePolicy, b.instanceLifecyclePolicy;
            && (At(InstanceLifecyclePolicy, Under(RetentionTriggers)) in d <==>
                  x.Some? && y.Some? && (x.value.retentionTriggers.Some? <==> y.value.retentionTriggers.None?))
            && (At(InstanceLifecyclePolicy, Under2(RetentionTriggers, TerminateHookAbandon)) in d <==>
                  && x.Some? && y.Some? && x.value.retentionTriggers.Some? && y.value.retentionTriggers.Some?
                  && x.value.retentionTriggers.value.terminateHookAbandon
                     != y.value.retentionTriggers.value.terminateHookAbandon)
  {
    hide SpecDelta, ScalarAt, ListDiffers;
    PathsBelow(InstanceLifecyclePolicy, a, b, eq);
  }

  lemma MaintenancePaths(a: Api.Spec, b: Api.Spec, eq: StringsEq)
    ensures var d, x, y := SpecDelta(a, b, eq), a.instanceMaintenancePolicy, b.instanceMaintenancePolicy;
            && (At(InstanceMaintenancePolicy, Under(MaxHealthyPercentage)) in d <==>
                  x.Some? && y.Some? && x.value.maxHealthyPercentage != y.value.maxHealthyPercentage)
            && (At(InstanceMaintenancePolicy, Under(MinHealthyPercentage)) in d <==>
                  x.Some? && y.Some? && x.value.minHealthyPercentage != y.value.minHealthyPercentage)
  {
    hide SpecDelta, ScalarAt, ListDiffers;
    PathsBelow(InstanceMaintenancePolicy, a, b, eq);
  }

  lemma TemplatePaths(a: Api.Spec, b: Api.Spec, eq: StringsEq)
    ensures var d, x, y := SpecDelta(a, b, eq), a.launchTemplate, b.launchTemplate;
            && (At(Field.LaunchTemplate, Under(LaunchTemplateName)) in d <==>
                  x.Some? && y.Some? && x.value.launchTemplateName != y.value.launchTemplateName)
            && (At(Field.LaunchTemplate, Under(Version)) in d <==>
                  x.Some? && y.Some? && x.value.version != y.value.version)
  {
    hide SpecDelta, ScalarAt, ListDiffers;
    PathsBelow(Field.LaunchTemplate, a, b, eq);
  }

  // ---- the mixed-instances policy -----------------------------------------------------------

  /** Each name below the instances distribution. */
  lemma DistributionPath(n: Name, a: Api.Spec, b: Api.Spec, eq: StringsEq)
    requires a.mixedInstancesPolicy.Some? && b.mixedInstancesPolicy.Some?
    ensures var x := a.mixedInstancesPolicy.value.instancesDistribution;
            var y := b.mixedInstancesPolicy.value.instancesDistribution;
            At(MixedInstancesPolicy, Under2(Name.InstancesDistribution, n)) in SpecDelta(a, b, eq) <==>
              && x.Some? && y.Some?
              && match n
                 case OnDemandAllocationStrategy =>
                   x.value.onDemandAllocationStrategy != y.value.onDemandAllocationStrategy
                 case OnDemandBaseCapacity => x.value.onDemandBaseCapacity != y.value.onDemandBaseCapacity
                 case OnDemandPercentageAboveBaseCapacity =>
                   x.value.onDemandPercentageAboveBaseCapacity != y.value.onDemandPercentageAboveBaseCapacity
                 case SpotAllocationStrategy => x.value.spotAllocationStrategy != y.value.spotAllocationStrategy
                 case SpotInstancePools => x.value.spotInstancePools != y.value.spotInstancePools
                 case SpotMaxPrice => x.value.spotMaxPrice != y.value.spotMaxPrice
                 case _ => false
  {
    hide SpecDelta, MixedTemplateDelta;
    MixedPart(a, b, eq, Under2(Name.InstancesDistribution, n));
  }

  lemma DistributionAsAWhole(x: Option<Api.InstancesDistribution>, y: Option<Api.InstancesDistribution>)
    ensures At(MixedInstancesPolicy, Under(Name.InstancesDistribution)) in DistributionDelta(x, y) <==>
              (x.Some? <==> y.None?)
  {
  }

  lemma TemplateNames(x: Option<Api.LaunchTemplate>, y: Option<Api.LaunchTemplate>)
    ensures At(MixedInstancesPolicy, Under(Template)) in MixedTemplateDelta(x, y) <==> (x.Some? <==> y.None?)
    ensures At(MixedInstancesPolicy, Under2(Template, Overrides)) in MixedTemplateDelta(x, y) <==>
              && x.Some? && y.Some?
              && (|x.value.overrides.Items()| != |y.value.overrides.Items()|
                  || NormalOverrides(x.value.overrides) != NormalOverrides(y.value.overrides))
    ensures var s, t := if x.Some? then x.value.launchTemplateSpecification else None,
                        if y.Some? then y.value.launchTemplateSpecification else None;
            var d := MixedTemplateDelta(x, y);
            && (At(MixedInstancesPolicy, Under2(Template, Name.LaunchTemplateSpecification)) in d <==>
                  x.Some? && y.Some? && (s.Some? <==> t.None?))
            && (At(MixedInstancesPolicy, Under3(Template, Name.LaunchTemplateSpecification, LaunchTemplateName))
                in d <==>
                  s.Some? && t.Some? && s.value.launchTemplateName != t.value.launchTemplateName)
            && (At(MixedInstancesPolicy, Under3(Template, Name.LaunchTemplateSpecification, Version)) in d <==>
                  s.Some? && t.Some? && s.value.version != t.value.version)
  {
    if x.Some? && y.Some? && x.value.overrides.Items() == [] == y.value.overrides.Items() {
      assert NormalOverrides(x.value.overrides).elems == NormalOverrides(y.value.overrides).elems;
    }
  }

  /** The two parts of the nest as wholes, and each name below them. */
  lemma MixedPaths(a: Api.Spec, b: Api.Spec, eq: StringsEq)
    ensures var d, x, y := SpecDelta(a, b, eq), a.mixedInstancesPolicy, b.mixedInstancesPolicy;
            && (At(MixedInstancesPolicy, Under(Name.InstancesDistribution)) in d <==>
                  && x.Some? && y.Some?
                  && (x.value.instancesDistribution.Some? <==> y.value.instancesDistribution.None?))
            && (At(MixedInstancesPolicy, Under(Template)) in d <==>
                  x.Some? && y.Some? && (x.value.launchTemplate.Some? <==> y.value.launchTemplate.None?))
  {
    hide SpecDelta, DistributionDelta, MixedTemplateDelta;
    MixedPart(a, b, eq, Under(Name.InstancesDistribution));
    MixedPart(a, b, eq, Under(Template));
    if a.mixedInstancesPolicy.Some? && b.mixedInstancesPolicy.Some? {
      var x, y := a.mixedInstancesPolicy.value, b.mixedInstancesPolicy.value;
      DistributionAsAWhole(x.instancesDistribution, y.instancesDistribution);
      TemplateNames(x.launchTemplate, y.launchTemplate);
    }
  }

  /** Each name below the launch template of the nest; the overrides are compared as a whole. */
  lemma MixedTemplatePaths(a: Api.Spec, b: Api.Spec, eq: StringsEq)
    requires a.mixedInstancesPolicy.Some? && b.mixedInstancesPolicy.Some?
    requires a.mixedInstancesPolicy.value.launchTemplate.Some? && b.mixedInstancesPolicy.value.launchTemplate.Some?
    ensures var d := SpecDelta(a, b, eq);
            var v := a.mixedInstancesPolicy.value.launchTemplate.value;
            var w := b.mixedInstancesPolicy.value.launchTemplate.value;
            var x, y := v.launchTemplateSpecification, w.launchTemplateSpecification;
            && (At(MixedInstancesPolicy, Under2(Template, Name.LaunchTemplateSpecification)) in d <==>
                  (x.Some? <==> y.None?))
            && (At(MixedInstancesPolicy, Under3(Template, Name.LaunchTemplateSpecification, LaunchTemplateName))
                in d <==>
                  x.Some? && y.Some? && x.value.launchTemplateName != y.value.launchTemplateName)
            && (At(MixedInstancesPolicy, Under3(Template, Name.LaunchTemplateSpecification, Version)) in d <==>
                  x.Some? && y.Some? && x.value.version != y.value.version)
            && (At(MixedInstancesPolicy, Under2(Template, Overrides)) in d <==>
                  || |v.overrides.Items()| != |w.overrides.Items()|
                  || NormalOverrides(v.overrides) != NormalOverrides(w.overrides))
  {
    hide SpecDelta, MixedTemplateDelta, DistributionDelta, NormalOverrides;
    MixedPart(a, b, eq, Under2(Template, Name.LaunchTemplateSpecification));
    MixedPart(a, b, eq, Under3(Template, Name.LaunchTemplateSpecification, LaunchTemplateName));
    MixedPart(a, b, eq, Under3(Template, Name.LaunchTemplateSpecification, Version));
    MixedPart(a, b, eq, Under2(Template, Overrides));
    TemplateNames(a.mixedInstancesPolicy.value.launchTemplate, b.mixedInstancesPolicy.value.launchTemplate);
  }

  lemma ReservationPathsOnly(x: Option<Api.CapacityReservationSpecification>,
                             y: Option<Api.CapacityReservationSpecification>, eq: StringsEq, p: Path)
    requires p.At? && p in ReservationDelta(x, y, eq)
    ensures || p.below.Here?
            || p.below == Under(CapacityReservationPreference) || p.below == Under(CapacityReservationTarget)
            || p.below == Under2(CapacityReservationTarget, CapacityReservationIDs)
            || p.below == Under2(CapacityReservationTarget, CapacityReservationResourceGroupARNs)
  {
    hide SameStrings;
  }

  lemma ReportsItsName(differ: bool, n: Name)
    ensures forall p | p in DistributedReport(differ, n) ::
              p == At(MixedInstancesPolicy, Under2(Name.InstancesDistribution, n))
  {
  }

  lemma DistributionPathsOnly(x: Option<Api.InstancesDistribution>, y: Option<Api.InstancesDistribution>, p: Path)
    requires p.At? && p in DistributionDelta(x, y)
    ensures p.below == Under(Name.InstancesDistribution) || (p.below.Under2? && p.below.x == Name.InstancesDistribution)
  {
    hide DistributedReport;
    forall differ, n
      ensures forall q | q in DistributedReport(differ, n) ::
                q == At(MixedInstancesPolicy, Under2(Name.InstancesDistribution, n))
    {
      ReportsItsName(differ, n);
    }
  }

  lemma MixedTemplatePathsOnly(x: Option<Api.LaunchTemplate>, y: Option<Api.LaunchTemplate>, p: Path)
    requires p.At? && p in MixedTemplateDelta(x, y)
    ensures || p.below == Under(Template)
            || p.below == Under2(Template, Name.LaunchTemplateSpecification)
            || p.below == Under2(Template, Overrides)
            || p.below == Under3(Template, Name.LaunchTemplateSpecification, LaunchTemplateName)
            || p.below == Under3(Template, Name.LaunchTemplateSpecification, Version)
  {
    hide OverridesDiffer;
  }

  lemma MixedPathsOnly(x: Option<Api.MixedInstancesPolicy>, y: Option<Api.MixedInstancesPolicy>, p: Path)
    requires p.At? && p in MixedDelta(x, y)
    ensures || p.below.Here?
            || p.below == Under(Name.InstancesDistribution) || p.below == Under(Template)
            || p.below == Under2(Template, Name.LaunchTemplateSpecification)
            || p.below == Under2(Template, Overrides)
            || p.below == Under3(Template, Name.LaunchTemplateSpecification, LaunchTemplateName)
            || p.below == Under3(Template, Name.LaunchTemplateSpecification, Version)
            || (p.below.Under2? && p.below.x == Name.InstancesDistribution)
  {
    hide DistributionDelta, MixedTemplateDelta;
    if x.Some? && y.Some? {
      if p in DistributionDelta(x.value.instancesDistribution, y.value.instancesDistribution) {
        DistributionPathsOnly(x.value.instancesDistribution, y.value.instancesDistribution, p);
      } else {
        MixedTemplatePathsOnly(x.value.launchTemplate, y.value.launchTemplate, p);
      }
    }
  }

  /** There are no other paths. */
  lemma OnlyThesePaths(p: Path, a: Api.Spec, b: Api.Spec, eq: StringsEq)
    requires p in SpecDelta(a, b, eq)
    ensures p.At?
    ensures p.below.Here? ||
            match p.field
            case AvailabilityZoneDistribution => p.below == Under(CapacityDistributionStrategy)
            case AvailabilityZoneImpairmentPolicy =>
              p.below == Under(ImpairedZoneHealthCheckBehavior) || p.below == Under(ZonalShiftEnabled)
            case CapacityReservationSpecification =>
              || p.below == Under(CapacityReservationPreference) || p.below == Under(CapacityReservationTarget)
              || p.below == Under2(CapacityReservationTarget, CapacityReservationIDs)
              || p.below == Under2(CapacityReservationTarget, CapacityReservationResourceGroupARNs)
            case InstanceLifecyclePolicy =>
              p.below == Under(RetentionTriggers) || p.below == Under2(RetentionTriggers, TerminateHookAbandon)
            case InstanceMaintenancePolicy =>
              p.below == Under(MaxHealthyPercentage) || p.below == Under(MinHealthyPercentage)
            case LaunchTemplate => p.below == Under(LaunchTemplateName) || p.below == Under(Version)
            case MixedInstancesPolicy =>
              || p.below == Under(Name.InstancesDistribution) || p.below == Under(Template)
              || p.below == Under2(Template, Name.LaunchTemplateSpecification)
              || p.below == Under2(Template, Overrides)
              || p.below == Under3(Template, Name.LaunchTemplateSpecification, LaunchTemplateName)
              || p.below == Under3(Template, Name.LaunchTemplateSpecification, Version)
              || (p.below.Under2? && p.below.x == Name.InstancesDistribution)
            case _ => false
  {
    hide SpecDelta, ScalarAt, ListDiffers, MixedDelta, ReservationDelta;
    Reported(a, b, eq, p);
    if p.field == MixedInstancesPolicy {
      MixedPathsOnly(a.mixedInstancesPolicy, b.mixedInstancesPolicy, p);
    } else if p.field == CapacityReservationSpecification {
      ReservationPathsOnly(a.capacityReservationSpecification, b.capacityReservationSpecification, eq, p);
    }
  }

  // ---- when overrides are alike -------------------------------------------------------------

  lemma OverrideAlike(x: Option<Api.LaunchTemplateOverrides>, y: Option<Api.LaunchTemplateOverrides>)
    ensures NormalOverride(x) == NormalOverride(y) <==>
              && (x.Some? <==> y.Some?)
              && (x.Some? ==>
                    && x.value.imageID == y.value.imageID
                    && NormalRequirements(x.value.instanceRequirements)
                       == NormalRequirements(y.value.instanceRequirements)
                    && x.value.instanceType == y.value.instanceType
                    && x.value.launchTemplateSpecification == y.value.launchTemplateSpecification
                    && x.value.weightedCapacity == y.value.weightedCapacity)
  {
    hide NormalRequirements;
  }

  /** Two override lists are alike when they have the same length and each pair of slots is alike. */
  lemma OverridesAlike(l: Slice<Option<Api.LaunchTemplateOverrides>>, m: Slice<Option<Api.LaunchTemplateOverrides>>)
    ensures NormalOverrides(l) == NormalOverrides(m) <==>
              && |l.Items()| == |m.Items()|
              && forall i | 0 <= i < |l.Items()| :: NormalOverride(l.Items()[i]) == NormalOverride(m.Items()[i])
  {
    hide NormalOverride;
    var x, y := NormalOverrides(l).elems, NormalOverrides(m).elems;
    assert |x| == |l.Items()| && |y| == |m.Items()|;
    forall i | 0 <= i < |x| && i < |y|
      ensures x[i] == NormalOverride(l.Items()[i]) && y[i] == NormalOverride(m.Items()[i])
    {
    }
    if |x| == |y| {
      assert x == y <==> forall i | 0 <= i < |x| :: x[i] == y[i];
    }
  }

  /** Two requirements blocks are alike when they agree on every field, nil and empty lists apart. */
  lemma RequirementsAlike(x: Api.InstanceRequirements, y: Api.InstanceRequirements)
    ensures NormalRequirements(Some(x)) == NormalRequirements(Some(y)) <==>
              && x.acceleratorCount == y.acceleratorCount
              && x.acceleratorManufacturers.Items() == y.acceleratorManufacturers.Items()
              && x.acceleratorNames.Items() == y.acceleratorNames.Items()
              && x.acceleratorTotalMemoryMiB == y.acceleratorTotalMemoryMiB
              && x.acceleratorTypes.Items() == y.acceleratorTypes.Items()
              && x.allowedInstanceTypes.Items() == y.allowedInstanceTypes.Items()
              && x.bareMetal == y.bareMetal
              && x.baselineEBSBandwidthMbps == y.baselineEBSBandwidthMbps
              && FactorsAlike(x.baselinePerformanceFactors, y.baselinePerformanceFactors)
              && x.burstablePerformance == y.burstablePerformance
              && x.cpuManufacturers.Items() == y.cpuManufacturers.Items()
              && x.excludedInstanceTypes.Items() == y.excludedInstanceTypes.Items()
              && x.instanceGenerations.Items() == y.instanceGenerations.Items()
              && x.localStorage == y.localStorage
              && x.localStorageTypes.Items() == y.localStorageTypes.Items()
              && x.maxSpotPriceAsPercentageOfOptimalOnDemandPrice == y.maxSpotPriceAsPercentageOfOptimalOnDemandPrice
              && x.memoryGiBPerVCPU == y.memoryGiBPerVCPU
              && x.memoryMiB == y.memoryMiB
              && x.networkBandwidthGbps == y.networkBandwidthGbps
              && x.networkInterfaceCount == y.networkInterfaceCount
              && x.onDemandMaxPricePercentageOverLowestPrice == y.onDemandMaxPricePercentageOverLowestPrice
              && x.requireHibernateSupport == y.requireHibernateSupport
              && x.spotMaxPricePercentageOverLowestPrice == y.spotMaxPricePercentageOverLowestPrice
              && x.totalLocalStorageGB == y.totalLocalStorageGB
              && x.vcpuCount == y.vcpuCount
  {
  }

  predicate FactorsAlike(x: Option<Api.BaselinePerformanceFactors>, y: Option<Api.BaselinePerformanceFactors>) {
    && (x.Some? <==> y.Some?)
    && (x.Some? ==>
          && (x.value.cpu.Some? <==> y.value.cpu.Some?)
          && (x.value.cpu.Some? ==> x.value.cpu.value.references.Items() == y.value.cpu.value.references.Items()))
  }
}
