/** From a spec through a request, a server and a describe answer back to a spec: what a create brings
    back, and what an update leaves to be reported. */
module RoundTrips {
  import opened Basics
  import opened Codec
  import opened ResourceDelta
  import opened TagLists
  import Api
  import GroupShapes
  import Wire

  // ---- what survives, field by field --------------------------------------------------------

  function Refilled(l: Api.StringList): Api.StringList {
    PointStrings(FillStrings(l))
  }

  /** The comparison takes a string list and its refilled form (nil slots made "") as equal. */
  predicate ListSurvives(l: Api.StringList, eq: StringsEq) {
    SameStrings(l, Refilled(l), eq)
  }

  predicate ZonesSurvive(o: Option<Api.AvailabilityZoneDistribution>) {
    o.Some? ==> EnumSurvives(o.value.capacityDistributionStrategy)
  }

  predicate ImpairmentSurvives(o: Option<Api.AvailabilityZoneImpairmentPolicy>) {
    o.Some? ==> EnumSurvives(o.value.impairedZoneHealthCheckBehavior)
  }

  predicate ReservationSurvives(o: Option<Api.CapacityReservationSpecification>, eq: StringsEq) {
    o.Some? ==>
      && EnumSurvives(o.value.capacityReservationPreference)
      && (o.value.capacityReservationTarget.Some? ==>
            && ListSurvives(o.value.capacityReservationTarget.value.capacityReservationIDs, eq)
            && ListSurvives(o.value.capacityReservationTarget.value.capacityReservationResourceGroupARNs, eq))
  }

  predicate LifecycleSurvives(o: Option<Api.InstanceLifecyclePolicy>) {
    o.Some? && o.value.retentionTriggers.Some? ==> EnumSurvives(o.value.retentionTriggers.value.terminateHookAbandon)
  }

  predicate NestedSurvives(f: Field, s: Api.Spec, eq: StringsEq)
    requires Nested(f)
  {
    match f
    case AvailabilityZoneDistribution => ZonesSurvive(s.availabilityZoneDistribution)
    case AvailabilityZoneImpairmentPolicy => ImpairmentSurvives(s.availabilityZoneImpairmentPolicy)
    case CapacityReservationSpecification => ReservationSurvives(s.capacityReservationSpecification, eq)
    case InstanceLifecyclePolicy => LifecycleSurvives(s.instanceLifecyclePolicy)
    case MixedInstancesPolicy => MixedSurvives(s.mixedInstancesPolicy)
    case _ => true
  }

  predicate StringListSurvives(f: Field, s: Api.Spec, eq: StringsEq) {
    match f
    case AvailabilityZones => ListSurvives(s.availabilityZones, eq)
    case LoadBalancerNames => ListSurvives(s.loadBalancerNames, eq)
    case TargetGroupARNs => ListSurvives(s.targetGroupARNs, eq)
    case TerminationPolicies => ListSurvives(s.terminationPolicies, eq)
    case _ => true
  }

  /** The field's value means the same after it was sent and described. */
  predicate Survives(f: Field, s: Api.Spec, eq: StringsEq) {
    if Nested(f) then NestedSurvives(f, s, eq) else StringListSurvives(f, s, eq)
  }

  // ---- nested fields ------------------------------------------------------------------------

  lemma ZonesComeBack(o: Option<Api.AvailabilityZoneDistribution>)
    ensures ZonesDelta(o, DecodeDistributionOfZones(EncodeDistributionOfZones(o))) == [] <==> ZonesSurvive(o)
  {
    if o.Some? {
      EnumRoundTrip(o.value.capacityDistributionStrategy);
    }
  }

  lemma ImpairmentComesBack(o: Option<Api.AvailabilityZoneImpairmentPolicy>)
    ensures ImpairmentDelta(o, DecodeImpairment(EncodeImpairment(o))) == [] <==> ImpairmentSurvives(o)
  {
    if o.Some? {
      EnumRoundTrip(o.value.impairedZoneHealthCheckBehavior);
    }
  }

  lemma ReservationComesBack(o: Option<Api.CapacityReservationSpecification>, eq: StringsEq)
    ensures ReservationDelta(o, DecodeReservation(EncodeReservation(o)), eq) == [] <==> ReservationSurvives(o, eq)
  {
    if o.Some? {
      EnumRoundTrip(o.value.capacityReservationPreference);
    }
  }

  lemma LifecycleComesBack(o: Option<Api.InstanceLifecyclePolicy>)
    ensures LifecycleDelta(o, DecodeLifecyclePolicy(EncodeLifecyclePolicy(o))) == [] <==> LifecycleSurvives(o)
  {
    if o.Some? && o.value.retentionTriggers.Some? {
      EnumRoundTrip(o.value.retentionTriggers.value.terminateHookAbandon);
    }
  }

  lemma MaintenanceComesBack(o: Option<Api.InstanceMaintenancePolicy>)
    requires MaintenanceFits(o)
    ensures MaintenanceDelta(o, DecodeMaintenance(EncodeMaintenance(o))) == []
  {
    if o.Some? {
      NarrowRoundTrip(o.value.maxHealthyPercentage);
      NarrowRoundTrip(o.value.minHealthyPercentage);
    }
  }

  lemma MixedComesBack(o: Option<Api.MixedInstancesPolicy>)
    requires MixedFits(o) && MixedFilled(o)
    ensures MixedDelta(o, DecodeMixed(EncodeMixed(o))) == [] <==> MixedSurvives(o)
  {
    NoMixedDelta(o, DecodeMixed(EncodeMixed(o)));
    if o.Some? {
      DistributionRoundTrip(o.value.instancesDistribution);
      if o.value.launchTemplate.Some? {
        OverridesRoundTrip(o.value.launchTemplate.value.overrides);
      }
    }
  }

  // ---- the settings as a whole --------------------------------------------------------------

  /** The spec that the server's copy of the settings of `s` stands for, read into `r`. */
  function Returned(s: Api.Spec, r: Api.Spec, g: Wire.Group): Api.Spec {
    GroupShapes.Found(r, g.(settings := GroupShapes.SettingsOf(s)))
  }

  /** Equal values at one field. */
  predicate SameNested(f: Field, a: Api.Spec, b: Api.Spec)
    requires Nested(f)
  {
    match f
    case AvailabilityZoneDistribution => a.availabilityZoneDistribution == b.availabilityZoneDistribution
    case AvailabilityZoneImpairmentPolicy => a.availabilityZoneImpairmentPolicy == b.availabilityZoneImpairmentPolicy
    case CapacityReservationSpecification => a.capacityReservationSpecification == b.capacityReservationSpecification
    case InstanceLifecyclePolicy => a.instanceLifecyclePolicy == b.instanceLifecyclePolicy
    case InstanceMaintenancePolicy => a.instanceMaintenancePolicy == b.instanceMaintenancePolicy
    case LaunchTemplate => a.launchTemplate == b.launchTemplate
    case MixedInstancesPolicy => a.mixedInstancesPolicy == b.mixedInstancesPolicy
  }

  predicate SameListed(f: Field, a: Api.Spec, b: Api.Spec)
    requires Listed(f)
  {
    match f
    case AvailabilityZones => a.availabilityZones == b.availabilityZones
    case LifecycleHookSpecificationList => a.lifecycleHooks == b.lifecycleHooks
    case LoadBalancerNames => a.loadBalancerNames == b.loadBalancerNames
    case Tags => a.tags == b.tags
    case TargetGroupARNs => a.targetGroupARNs == b.targetGroupARNs
    case TargetGroupRefs => a.targetGroupRefs == b.targetGroupRefs
    case TerminationPolicies => a.terminationPolicies == b.terminationPolicies
    case TrafficSources => a.trafficSources == b.trafficSources
  }

  predicate Same(f: Field, a: Api.Spec, b: Api.Spec) {
    if Nested(f) then SameNested(f, a, b)
    else if Listed(f) then SameListed(f, a, b)
    else ScalarAt(f, a) == ScalarAt(f, b)
  }

  /** What is reported at a field depends on nothing but the two values there. */
  lemma DeltaIsLocal(f: Field, a: Api.Spec, b: Api.Spec, c: Api.Spec, eq: StringsEq)
    requires Same(f, b, c)
    ensures FieldDelta(f, a, b, eq) == FieldDelta(f, a, c, eq)
  {
  }

  /** The fields that both request payloads carry in their settings. */
  predicate InSettings(f: Field) {
    && f != InstanceID && f != InstanceRef && f != LifecycleHookSpecificationList && f != LoadBalancerNames
    && f != ServiceLinkedRoleRef && f != SkipZonalShiftValidation && f != Tags && f != TargetGroupARNs
    && f != TargetGroupRefs && f != TrafficSources
  }

  lemma NestedComeBack(f: Field, s: Api.Spec, r: Api.Spec, g: Wire.Group, eq: StringsEq)
    requires Nested(f) && GroupShapes.SettingsFit(s) && GroupShapes.SettingsFilled(s)
    ensures NestedDelta(f, s, Returned(s, r, g), eq) == [] <==> NestedSurvives(f, s, eq)
  {
    hide ZonesDelta, ImpairmentDelta, ReservationDelta, LifecycleDelta, MaintenanceDelta, MixedDelta, MixedSurvives,
         ReservationSurvives, ZonesSurvive, ImpairmentSurvives, LifecycleSurvives;
    match f
    case AvailabilityZoneDistribution => ZonesComeBack(s.availabilityZoneDistribution);
    case AvailabilityZoneImpairmentPolicy => ImpairmentComesBack(s.availabilityZoneImpairmentPolicy);
    case CapacityReservationSpecification => ReservationComesBack(s.capacityReservationSpecification, eq);
    case InstanceLifecyclePolicy => LifecycleComesBack(s.instanceLifecyclePolicy);
    case InstanceMaintenancePolicy => MaintenanceComesBack(s.instanceMaintenancePolicy);
    case MixedInstancesPolicy => MixedComesBack(s.mixedInstancesPolicy);
    case _ =>
  }

  lemma ScalarsComeBack(f: Field, s: Api.Spec, r: Api.Spec, g: Wire.Group)
    requires !Nested(f) && !Listed(f) && InSettings(f) && GroupShapes.SettingsFit(s)
    ensures ScalarAt(f, Returned(s, r, g)) == ScalarAt(f, s)
  {
    NarrowRoundTrip(s.defaultCooldown);
    NarrowRoundTrip(s.defaultInstanceWarmup);
    NarrowRoundTrip(s.desiredCapacity);
    NarrowRoundTrip(s.healthCheckGracePeriod);
    NarrowRoundTrip(s.maxInstanceLifetime);
    NarrowRoundTrip(s.maxSize);
    NarrowRoundTrip(s.minSize);
  }

  lemma ListsComeBack(f: Field, s: Api.Spec, r: Api.Spec, g: Wire.Group, eq: StringsEq)
    requires Listed(f) && InSettings(f)
    ensures !ListDiffers(f, s, Returned(s, r, g), eq) <==> StringListSurvives(f, s, eq)
  {
  }

  /** A field of the settings comes back without a difference exactly when its value survives. */
  lemma SettingsRoundTrip(f: Field, s: Api.Spec, r: Api.Spec, g: Wire.Group, eq: StringsEq)
    requires InSettings(f) && GroupShapes.SettingsFit(s) && GroupShapes.SettingsFilled(s)
    ensures Agree(f, s, Returned(s, r, g), eq) <==> Survives(f, s, eq)
  {
    hide Returned, NestedDelta, ListDiffers, NestedSurvives;
    if Nested(f) {
      NestedComeBack(f, s, r, g, eq);
    } else if Listed(f) {
      ListsComeBack(f, s, r, g, eq);
    } else {
      ScalarsComeBack(f, s, r, g);
    }
  }

  // ---- create -------------------------------------------------------------------------------

  /** What is read after a create, from a server that keeps what it is sent. */
  function CreatedAndRead(s: Api.Spec, arn: Option<string>, tags: Slice<Api.Tag>): Api.Spec {
    GroupShapes.Found(s, GroupShapes.Echo(GroupShapes.CreateInputOf(s), arn, tags))
  }

  lemma TrafficRoundTrip(l: Slice<Option<Api.TrafficSource>>)
    requires NoNilSlots(l)
    ensures GroupShapes.DecodeTraffic(GroupShapes.EncodeTraffic(l)) == l
  {
    assert GroupShapes.DecodeTraffic(GroupShapes.EncodeTraffic(l)).Items() == l.Items();
  }

  lemma CreatedListsComeBack(f: Field, s: Api.Spec, arn: Option<string>, tags: Slice<Api.Tag>, eq: StringsEq)
    requires Listed(f) && !InSettings(f) && NoNilSlots(s.trafficSources)
    requires TagMap(tags.Items()) == TagMap(s.tags.Items())
    ensures !ListDiffers(f, s, CreatedAndRead(s, arn, tags), eq) <==> StringListSurvives(f, s, eq)
  {
    hide TagMap, PointStrings, FillStrings, SameStrings;
    TrafficRoundTrip(s.trafficSources);
  }

  lemma CreatedIsReturned(s: Api.Spec, arn: Option<string>, tags: Slice<Api.Tag>)
    ensures CreatedAndRead(s, arn, tags) == Returned(s, s, GroupShapes.Echo(GroupShapes.CreateInputOf(s), arn, tags))
  {
    hide GroupShapes.Found;
  }

  lemma CreatedScalarsStay(f: Field, s: Api.Spec, arn: Option<string>, tags: Slice<Api.Tag>)
    requires !Nested(f) && !Listed(f) && !InSettings(f)
    ensures ScalarAt(f, CreatedAndRead(s, arn, tags)) == ScalarAt(f, s)
  {
  }

  lemma CreateRoundTripAt(f: Field, s: Api.Spec, arn: Option<string>, tags: Slice<Api.Tag>, eq: StringsEq)
    requires GroupShapes.CreateFits(s) && GroupShapes.CreateFilled(s)
    requires TagMap(tags.Items()) == TagMap(s.tags.Items())
    ensures Agree(f, s, CreatedAndRead(s, arn, tags), eq) <==> Survives(f, s, eq)
  {
    hide CreatedAndRead, NestedDelta, ListDiffers, ScalarAt, NestedSurvives, TagMap, Returned,
         GroupShapes.SettingsFit, GroupShapes.HooksFit, MixedFilled, GroupShapes.CreateInputOf, ListSurvives,
         SameStrings;
    if InSettings(f) {
      CreatedIsReturned(s, arn, tags);
      SettingsRoundTrip(f, s, s, GroupShapes.Echo(GroupShapes.CreateInputOf(s), arn, tags), eq);
    } else if Listed(f) {
      CreatedListsComeBack(f, s, arn, tags, eq);
    } else {
      CreatedScalarsStay(f, s, arn, tags);
    }
  }

  /** Create, store, describe, compare: for every spec that the builder accepts, whatever the order in
      which the server lists the tags, nothing is reported exactly when every field survives. */
  lemma CreateRoundTrip(s: Api.Spec, arn: Option<string>, tags: Slice<Api.Tag>, eq: StringsEq)
    requires GroupShapes.CreateFits(s) && GroupShapes.CreateFilled(s)
    requires TagMap(tags.Items()) == TagMap(s.tags.Items())
    ensures SpecDelta(s, CreatedAndRead(s, arn, tags), eq) == [] <==> forall f :: Survives(f, s, eq)
  {
    EmptyDelta(s, CreatedAndRead(s, arn, tags), eq);
    forall f
      ensures Agree(f, s, CreatedAndRead(s, arn, tags), eq) <==> Survives(f, s, eq)
    {
      CreateRoundTripAt(f, s, arn, tags, eq);
    }
  }

  /** No enumeration is "", no list of strings has a nil slot and no override is nil. */
  predicate Tidy(s: Api.Spec) {
    && ZonesSurvive(s.availabilityZoneDistribution)
    && ImpairmentSurvives(s.availabilityZoneImpairmentPolicy)
    && TidyReservation(s.capacityReservationSpecification)
    && LifecycleSurvives(s.instanceLifecyclePolicy)
    && MixedSurvives(s.mixedInstancesPolicy)
    && NoNilSlots(s.availabilityZones)
    && NoNilSlots(s.loadBalancerNames)
    && NoNilSlots(s.targetGroupARNs)
    && NoNilSlots(s.terminationPolicies)
  }

  predicate TidyReservation(o: Option<Api.CapacityReservationSpecification>) {
    o.Some? ==>
      && EnumSurvives(o.value.capacityReservationPreference)
      && (o.value.capacityReservationTarget.Some? ==>
            && NoNilSlots(o.value.capacityReservationTarget.value.capacityReservationIDs)
            && NoNilSlots(o.value.capacityReservationTarget.value.capacityReservationResourceGroupARNs))
  }

  /** The comparison tells a list with a nil slot from its refilled form. */
  ghost predicate TellsNilSlots(eq: StringsEq) {
    forall l: Api.StringList | !NoNilSlots(l) :: !eq(l.Items(), Refilled(l).Items())
  }

  lemma ListSurvivesWithoutNil(l: Api.StringList, eq: StringsEq)
    requires Reflexive(eq)
    ensures NoNilSlots(l) ==> ListSurvives(l, eq)
    ensures TellsNilSlots(eq) ==> (ListSurvives(l, eq) <==> NoNilSlots(l))
  {
    StringsRoundTrip(l);
  }

  /** Every field of a tidy spec survives, and with a comparison that tells nil slots, those specs are
      the only ones. */
  lemma TidySpecsSurvive(s: Api.Spec, eq: StringsEq)
    requires Reflexive(eq)
    ensures Tidy(s) ==> forall f :: Survives(f, s, eq)
    ensures TellsNilSlots(eq) ==> ((forall f :: Survives(f, s, eq)) <==> Tidy(s))
  {
    hide ListSurvives, NoNilSlots, TellsNilSlots, MixedSurvives, ZonesSurvive, ImpairmentSurvives, LifecycleSurvives;
    ListSurvivesWithoutNil(s.availabilityZones, eq);
    ListSurvivesWithoutNil(s.loadBalancerNames, eq);
    ListSurvivesWithoutNil(s.targetGroupARNs, eq);
    ListSurvivesWithoutNil(s.terminationPolicies, eq);
    var o := s.capacityReservationSpecification;
    if o.Some? && o.value.capacityReservationTarget.Some? {
      ListSurvivesWithoutNil(o.value.capacityReservationTarget.value.capacityReservationIDs, eq);
      ListSurvivesWithoutNil(o.value.capacityReservationTarget.value.capacityReservationResourceGroupARNs, eq);
    }
    if forall f :: Survives(f, s, eq) {
      EveryFieldSurvives(s, eq);
    }
  }

  lemma EveryFieldSurvives(s: Api.Spec, eq: StringsEq)
    requires forall f :: Survives(f, s, eq)
    ensures ZonesSurvive(s.availabilityZoneDistribution) && ImpairmentSurvives(s.availabilityZoneImpairmentPolicy)
    ensures ReservationSurvives(s.capacityReservationSpecification, eq) && LifecycleSurvives(s.instanceLifecyclePolicy)
    ensures MixedSurvives(s.mixedInstancesPolicy)
    ensures ListSurvives(s.availabilityZones, eq) && ListSurvives(s.loadBalancerNames, eq)
    ensures ListSurvives(s.targetGroupARNs, eq) && ListSurvives(s.terminationPolicies, eq)
  {
    hide ListSurvives, MixedSurvives, ZonesSurvive, ImpairmentSurvives, ReservationSurvives, LifecycleSurvives;
    assert Survives(AvailabilityZoneDistribution, s, eq) && Survives(AvailabilityZoneImpairmentPolicy, s, eq);
    assert Survives(CapacityReservationSpecification, s, eq) && Survives(InstanceLifecyclePolicy, s, eq);
    assert Survives(MixedInstancesPolicy, s, eq);
    assert Survives(AvailabilityZones, s, eq) && Survives(LoadBalancerNames, s, eq);
    assert Survives(TargetGroupARNs, s, eq) && Survives(TerminationPolicies, s, eq);
  }

  /** A created group is never reported as different, for every tidy spec and every comparison of
      string lists that is reflexive; if it tells nil slots as well, every other spec is reported. */
  lemma TidySpecsRoundTrip(s: Api.Spec, arn: Option<string>, tags: Slice<Api.Tag>, eq: StringsEq)
    requires GroupShapes.CreateFits(s) && GroupShapes.CreateFilled(s) && Reflexive(eq)
    requires TagMap(tags.Items()) == TagMap(s.tags.Items())
    ensures Tidy(s) ==> SpecDelta(s, CreatedAndRead(s, arn, tags), eq) == []
    ensures TellsNilSlots(eq) ==> (SpecDelta(s, CreatedAndRead(s, arn, tags), eq) == [] <==> Tidy(s))
  {
    hide Survives, Tidy, TellsNilSlots, SpecDelta, CreatedAndRead, TagMap;
    TidySpecsSurvive(s, eq);
    CreateRoundTrip(s, arn, tags, eq);
  }

  /** For example: a distribution strategy of "" is reported right after the create, because it comes
      back as nil. */
  lemma EmptyStrategyIsReported(s: Api.Spec, arn: Option<string>, tags: Slice<Api.Tag>, eq: StringsEq)
    requires s.availabilityZoneDistribution == Some(Api.AvailabilityZoneDistribution(Some("")))
    ensures At(AvailabilityZoneDistribution, Under(CapacityDistributionStrategy))
            in SpecDelta(s, CreatedAndRead(s, arn, tags), eq)
  {
    hide TagMap, SpecDelta;
    var back := CreatedAndRead(s, arn, tags);
    assert back.availabilityZoneDistribution == Some(Api.AvailabilityZoneDistribution(None));
    Reported(s, back, eq, At(AvailabilityZoneDistribution, Under(CapacityDistributionStrategy)));
  }

  // ---- update -------------------------------------------------------------------------------

  /** The fields that an update can bring to the server: in the settings, and not the name, which
      selects the group. */
  predicate Carried(f: Field) {
    InSettings(f) && f != Field.Name
  }

  predicate SetNested(f: Field, d: Api.Spec)
    requires Nested(f)
  {
    match f
    case AvailabilityZoneDistribution => d.availabilityZoneDistribution.Some?
    case AvailabilityZoneImpairmentPolicy => d.availabilityZoneImpairmentPolicy.Some?
    case CapacityReservationSpecification => d.capacityReservationSpecification.Some?
    case InstanceLifecyclePolicy => d.instanceLifecyclePolicy.Some?
    case InstanceMaintenancePolicy => d.instanceMaintenancePolicy.Some?
    case LaunchTemplate => d.launchTemplate.Some?
    case MixedInstancesPolicy => d.mixedInstancesPolicy.Some?
  }

  /** The field is set in the desired spec, and an update carries it. */
  predicate Sent(f: Field, d: Api.Spec) {
    Carried(f) &&
    if Nested(f) then SetNested(f, d)
    else if f == AvailabilityZones then d.availabilityZones.Elems?
    else if f == TerminationPolicies then d.terminationPolicies.Elems?
    else if Listed(f) then false
    else IsSet(ScalarAt(f, d))
  }

  function UpdatedGroup(g: Wire.Group, d: Api.Spec): Wire.Group {
    GroupShapes.Updated(g, GroupShapes.UpdateInputOf(d))
  }

  /** A nested field that is set is sent, and one that is not is left out of the request. */
  lemma NestedAreSentWhenSet(d: Api.Spec)
    ensures var u := GroupShapes.SettingsOf(d);
            && (u.availabilityZoneDistribution.Some? <==> d.availabilityZoneDistribution.Some?)
            && (u.availabilityZoneImpairmentPolicy.Some? <==> d.availabilityZoneImpairmentPolicy.Some?)
            && (u.capacityReservationSpecification.Some? <==> d.capacityReservationSpecification.Some?)
            && (u.instanceLifecyclePolicy.Some? <==> d.instanceLifecyclePolicy.Some?)
            && (u.instanceMaintenancePolicy.Some? <==> d.instanceMaintenancePolicy.Some?)
            && (u.launchTemplate.Some? <==> d.launchTemplate.Some?)
            && (u.mixedInstancesPolicy.Some? <==> d.mixedInstancesPolicy.Some?)
  {
  }

  lemma NestedAfterUpdate(f: Field, d: Api.Spec, g: Wire.Group)
    requires Nested(f)
    ensures SetNested(f, d) ==> SameNested(f, GroupShapes.Found(d, UpdatedGroup(g, d)), Returned(d, d, g))
    ensures !SetNested(f, d) ==> SameNested(f, GroupShapes.Found(d, UpdatedGroup(g, d)), GroupShapes.Found(d, g))
  {
    NestedAreSentWhenSet(d);
    hide GroupShapes.SettingsOf, DecodeDistributionOfZones, DecodeImpairment, DecodeReservation,
         DecodeLifecyclePolicy, DecodeMaintenance, DecodeMixed, DecodeEnum;
  }

  lemma ScalarAfterUpdate(f: Field, d: Api.Spec, g: Wire.Group)
    requires !Nested(f) && !Listed(f) && Carried(f)
    ensures var back := GroupShapes.Found(d, UpdatedGroup(g, d));
            ScalarAt(f, back) == if IsSet(ScalarAt(f, d)) then ScalarAt(f, Returned(d, d, g))
                                 else ScalarAt(f, GroupShapes.Found(d, g))
  {
  }

  lemma ListedAfterUpdate(f: Field, d: Api.Spec, g: Wire.Group)
    requires Listed(f)
    ensures var back := GroupShapes.Found(d, UpdatedGroup(g, d));
            SameListed(f, back, if Sent(f, d) then Returned(d, d, g) else GroupShapes.Found(d, g))
  {
    hide PointStrings;
  }

  lemma UncarriedScalarFields(f: Field)
    requires !Nested(f) && !Listed(f) && !Carried(f)
    ensures f == InstanceID || f == InstanceRef || f == Field.Name || f == ServiceLinkedRoleRef
            || f == SkipZonalShiftValidation
  {
  }

  lemma UncarriedScalars(f: Field, a: Api.Spec, b: Api.Spec)
    requires f == InstanceID || f == InstanceRef || f == Field.Name || f == ServiceLinkedRoleRef
             || f == SkipZonalShiftValidation
    requires GroupShapes.UntouchedPart(a) == GroupShapes.UntouchedPart(b) && a.name == b.name
    ensures ScalarAt(f, a) == ScalarAt(f, b)
  {
  }

  lemma UncarriedAfterUpdate(f: Field, d: Api.Spec, g: Wire.Group)
    requires !Nested(f) && !Listed(f) && !Carried(f)
    ensures ScalarAt(f, GroupShapes.Found(d, UpdatedGroup(g, d))) == ScalarAt(f, GroupShapes.Found(d, g))
  {
    hide ScalarAt;
    UncarriedScalarFields(f);
    GroupShapes.FoundSplitsSpec(d, d, g);
    GroupShapes.FoundSplitsSpec(d, d, UpdatedGroup(g, d));
    NameAfterUpdate(d, g);
    UncarriedScalars(f, GroupShapes.Found(d, UpdatedGroup(g, d)), GroupShapes.Found(d, g));
  }

  lemma NameAfterUpdate(d: Api.Spec, g: Wire.Group)
    ensures GroupShapes.Found(d, UpdatedGroup(g, d)).name == g.settings.name == GroupShapes.Found(d, g).name
  {
  }

  /** After an update, a field that was sent reads as its own round trip, and every other field reads
      as it did before. */
  lemma ReadAfterUpdate(f: Field, d: Api.Spec, g: Wire.Group)
    ensures Sent(f, d) ==> Same(f, GroupShapes.Found(d, UpdatedGroup(g, d)), Returned(d, d, g))
    ensures !Sent(f, d) ==> Same(f, GroupShapes.Found(d, UpdatedGroup(g, d)), GroupShapes.Found(d, g))
  {
    hide SameNested, SetNested, SameListed, ScalarAt, UpdatedGroup, Returned, GroupShapes.Found;
    if Nested(f) {
      NestedAfterUpdate(f, d, g);
    } else if Listed(f) {
      ListedAfterUpdate(f, d, g);
    } else if Carried(f) {
      ScalarAfterUpdate(f, d, g);
    } else {
      UncarriedAfterUpdate(f, d, g);
    }
  }

  /** After a successful update and a re-read, the report at every field is decided: a field that was
      sent is reported exactly when its value does not survive the trip; every other field is reported
      just as it would have been before the update. */
  lemma UpdateDecidesDelta(f: Field, d: Api.Spec, g: Wire.Group, eq: StringsEq)
    requires GroupShapes.SettingsFit(d) && GroupShapes.SettingsFilled(d)
    ensures var back := GroupShapes.Found(d, UpdatedGroup(g, d));
            && (Sent(f, d) ==> (Agree(f, d, back, eq) <==> Survives(f, d, eq)))
            && (!Sent(f, d) ==> FieldDelta(f, d, back, eq) == FieldDelta(f, d, GroupShapes.Found(d, g), eq))
  {
    hide Returned, UpdatedGroup, Same, GroupShapes.Found, FieldDelta, Survives, GroupShapes.SettingsFit, Sent,
         MixedFilled;
    var back := GroupShapes.Found(d, UpdatedGroup(g, d));
    ReadAfterUpdate(f, d, g);
    if Sent(f, d) {
      SentIsInSettings(f, d);
      DeltaIsLocal(f, d, back, Returned(d, d, g), eq);
      SettingsRoundTrip(f, d, d, g, eq);
    } else {
      DeltaIsLocal(f, d, back, GroupShapes.Found(d, g), eq);
    }
  }

  lemma SentIsInSettings(f: Field, d: Api.Spec)
    requires Sent(f, d)
    ensures InSettings(f)
  {
  }

  /** Reading a group back into the desired resource never shows a difference at these fields: their
      values are the desired ones. */
  predicate Immovable(f: Field) {
    f == InstanceID || f == InstanceRef || f == LifecycleHookSpecificationList || f == ServiceLinkedRoleRef
    || f == SkipZonalShiftValidation || f == TargetGroupRefs
  }

  lemma ImmovableFieldsAgree(f: Field, a: Api.Spec, b: Api.Spec, eq: StringsEq)
    requires GroupShapes.UntouchedPart(a) == GroupShapes.UntouchedPart(b)
    ensures Immovable(f) ==> Agree(f, a, b, eq)
    ensures f == Field.Name && a.name == b.name ==> Agree(f, a, b, eq)
    ensures f == Tags && TagMap(a.tags.Items()) == TagMap(b.tags.Items()) ==> Agree(f, a, b, eq)
  {
    hide TagMap, SameStrings, NestedDelta;
  }

  /** Comparing a resource with what was read into it never reports these fields. */
  lemma ReadNeverReportsImmovable(s: Api.Spec, g: Wire.Group, eq: StringsEq, p: Path)
    requires p in SpecDelta(s, GroupShapes.Found(s, g), eq)
    ensures p.At? && !Immovable(p.field)
  {
    hide GroupShapes.Found, FieldDelta, SpecDelta;
    GroupShapes.FoundSplitsSpec(s, s, g);
    Reported(s, GroupShapes.Found(s, g), eq, p);
    ImmovableFieldsAgree(p.field, s, GroupShapes.Found(s, g), eq);
  }

  /** The fields an update cannot settle: what the desired spec leaves unset, and what the update
      request leaves out. */
  predicate Unsettled(f: Field, d: Api.Spec) {
    || f == LoadBalancerNames || f == TargetGroupARNs || f == TrafficSources
    || (Carried(f) && !Sent(f, d))
  }

  lemma FieldsArePartitioned(f: Field, d: Api.Spec)
    ensures Sent(f, d) || Unsettled(f, d) || Immovable(f) || f == Field.Name || f == Tags
    ensures Sent(f, d) || Immovable(f) ==> !Unsettled(f, d)
    ensures f == Field.Name || f == Tags ==> !Unsettled(f, d)
  {
  }

  lemma UnsettledAfterUpdate(f: Field, d: Api.Spec, g: Wire.Group, eq: StringsEq)
    requires GroupShapes.SettingsFit(d) && GroupShapes.SettingsFilled(d)
    requires d.name == g.settings.name && TagMap(d.tags.Items()) == TagMap(g.tags.Items())
    requires Survives(f, d, eq) || !Sent(f, d)
    ensures var back, before := GroupShapes.Found(d, UpdatedGroup(g, d)), GroupShapes.Found(d, g);
            FieldDelta(f, d, back, eq) == if Unsettled(f, d) then FieldDelta(f, d, before, eq) else []
  {
    GroupShapes.FoundSplitsSpec(d, d, UpdatedGroup(g, d));
    NameAfterUpdate(d, g);
    assert GroupShapes.Found(d, UpdatedGroup(g, d)).tags == g.tags;
    hide UpdatedGroup, GroupShapes.Found, FieldDelta, Survives, GroupShapes.SettingsFit, Sent, Unsettled, MixedFilled,
         TagMap;
    UpdateDecidesDelta(f, d, g, eq);
    FieldsArePartitioned(f, d);
    ImmovableFieldsAgree(f, d, GroupShapes.Found(d, UpdatedGroup(g, d)), eq);
  }

  /** Exactly what is left to report after an update: the paths reported before it at the fields that
      it cannot settle. */
  lemma UpdateConverges(d: Api.Spec, g: Wire.Group, eq: StringsEq, p: Path)
    requires GroupShapes.SettingsFit(d) && GroupShapes.SettingsFilled(d)
    requires d.name == g.settings.name && TagMap(d.tags.Items()) == TagMap(g.tags.Items())
    requires forall f | Sent(f, d) :: Survives(f, d, eq)
    ensures var back, before := GroupShapes.Found(d, UpdatedGroup(g, d)), GroupShapes.Found(d, g);
            p in SpecDelta(d, back, eq) <==> p.At? && Unsettled(p.field, d) && p in SpecDelta(d, before, eq)
  {
    hide UpdatedGroup, GroupShapes.Found, FieldDelta, Survives, GroupShapes.SettingsFit, Sent, Unsettled, MixedFilled,
         TagMap, SpecDelta;
    Reported(d, GroupShapes.Found(d, UpdatedGroup(g, d)), eq, p);
    Reported(d, GroupShapes.Found(d, g), eq, p);
    if p.At? {
      UnsettledAfterUpdate(p.field, d, g, eq);
    }
  }

  /** A second update with the same desired spec changes nothing more. */
  lemma UpdateIsIdempotent(d: Api.Spec, g: Wire.Group)
    ensures UpdatedGroup(UpdatedGroup(g, d), d) == UpdatedGroup(g, d)
  {
    hide GroupShapes.SettingsOf;
  }
}
