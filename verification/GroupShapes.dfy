/** The request payloads and the described group as functions of a spec, and the two servers that
    the convergence results talk about: one that stores what a create request says, and one that
    replaces every field an update request carries. */
module GroupShapes {
  import opened Basics
  import opened Api
  import opened Codec
  import Wire

  // ---- numbers that the builders refuse -----------------------------------------------------

  /** The field that an error "field ... is of type int32" names. Every Max and Min goes by that
      name alone. */
  datatype NumberField =
    | DefaultCooldown | DefaultInstanceWarmup | DesiredCapacity | HealthCheckGracePeriod
    | MaxHealthyPercentage | MinHealthyPercentage | HeartbeatTimeout | MaxInstanceLifetime | MaxSize | MinSize
    | OnDemandBaseCapacity | OnDemandPercentageAboveBaseCapacity | SpotInstancePools | Max | Min
    | MaxSpotPriceAsPercentageOfOptimalOnDemandPrice | OnDemandMaxPricePercentageOverLowestPrice
    | SpotMaxPricePercentageOverLowestPrice

  /** The first complaint wins, as with early returns. */
  function First(a: Option<NumberField>, b: Option<NumberField>): (r: Option<NumberField>)
    ensures r.None? <==> a.None? && b.None?
  {
    if a.Some? then a else b
  }

  function NarrowError(field: NumberField, v: Option<int64>): (r: Option<NumberField>)
    ensures r.None? <==> Fits(v)
  {
    if Fits(v) then None else Some(field)
  }

  function RangeError(o: Option<IntRange>): (r: Option<NumberField>)
    ensures r.None? <==> RangeFits(o)
  {
    if o.None? then None else First(NarrowError(Max, o.value.max), NarrowError(Min, o.value.min))
  }

  function MaintenanceError(o: Option<InstanceMaintenancePolicy>): (r: Option<NumberField>)
    ensures r.None? <==> MaintenanceFits(o)
  {
    if o.None? then None
    else First(NarrowError(MaxHealthyPercentage, o.value.maxHealthyPercentage),
               NarrowError(MinHealthyPercentage, o.value.minHealthyPercentage))
  }

  function DistributionError(o: Option<InstancesDistribution>): (r: Option<NumberField>)
    ensures r.None? <==> DistributionFits(o)
  {
    if o.None? then None
    else First(NarrowError(OnDemandBaseCapacity, o.value.onDemandBaseCapacity),
         First(NarrowError(OnDemandPercentageAboveBaseCapacity, o.value.onDemandPercentageAboveBaseCapacity),
               NarrowError(SpotInstancePools, o.value.spotInstancePools)))
  }

  function RequirementsError(o: Option<InstanceRequirements>): (e: Option<NumberField>)
    ensures e.None? <==> RequirementsFit(o)
  {
    if o.None? then None
    else
      var r := o.value;
      First(RangeError(r.acceleratorCount),
      First(RangeError(r.acceleratorTotalMemoryMiB),
      First(RangeError(r.baselineEBSBandwidthMbps),
      First(NarrowError(MaxSpotPriceAsPercentageOfOptimalOnDemandPrice,
                        r.maxSpotPriceAsPercentageOfOptimalOnDemandPrice),
      First(RangeError(r.memoryMiB),
      First(RangeError(r.networkInterfaceCount),
      First(NarrowError(OnDemandMaxPricePercentageOverLowestPrice, r.onDemandMaxPricePercentageOverLowestPrice),
      First(NarrowError(SpotMaxPricePercentageOverLowestPrice, r.spotMaxPricePercentageOverLowestPrice),
            RangeError(r.vcpuCount)))))))))
  }

  function OverrideError(o: Option<LaunchTemplateOverrides>): (e: Option<NumberField>)
    ensures e.None? <==> OverrideFits(o)
  {
    if o.None? then None else RequirementsError(o.value.instanceRequirements)
  }

  /** The complaint about the first override that has one. */
  function OverridesError(l: seq<Option<LaunchTemplateOverrides>>): (e: Option<NumberField>)
    ensures e.None? <==> OverridesFit(l)
  {
    if l == [] then None
    else
      var init := l[..|l| - 1];
      assert l == init + [l[|l| - 1]];
      First(OverridesError(init), OverrideError(l[|l| - 1]))
  }

  /** The complaint is the one of the first override that does not fit. */
  lemma {:induction false} FirstOverrideComplains(l: seq<Option<LaunchTemplateOverrides>>) returns (i: nat)
    requires !OverridesFit(l)
    ensures i < |l| && OverridesFit(l[..i]) && !OverrideFits(l[i]) && OverridesError(l) == OverrideError(l[i])
  {
    hide OverrideFits, OverrideError;
    var init := l[..|l| - 1];
    assert l == init + [l[|l| - 1]];
    if OverridesFit(init) {
      i := |l| - 1;
    } else {
      i := FirstOverrideComplains(init);
      assert l[..i] == init[..i];
    }
  }

  function MixedError(o: Option<MixedInstancesPolicy>): (e: Option<NumberField>)
    ensures e.None? <==> MixedFits(o)
  {
    if o.None? then None
    else First(DistributionError(o.value.instancesDistribution),
               if o.value.launchTemplate.None? then None
               else OverridesError(o.value.launchTemplate.value.overrides.Items()))
  }

  predicate HooksFit(l: Slice<LifecycleHookSpecification>) {
    forall i | 0 <= i < |l.Items()| :: Fits(l.Items()[i].heartbeatTimeout)
  }

  function HooksError(l: Slice<LifecycleHookSpecification>): (e: Option<NumberField>)
    ensures e.None? <==> HooksFit(l)
  {
    if HooksFit(l) then None else Some(HeartbeatTimeout)
  }

  /** Every number that both builders encode has 32 bits. */
  predicate SettingsFit(s: Spec) {
    && Fits(s.defaultCooldown)
    && Fits(s.defaultInstanceWarmup)
    && Fits(s.desiredCapacity)
    && Fits(s.healthCheckGracePeriod)
    && MaintenanceFits(s.instanceMaintenancePolicy)
    && Fits(s.maxInstanceLifetime)
    && Fits(s.maxSize)
    && Fits(s.minSize)
    && MixedFits(s.mixedInstancesPolicy)
  }

  predicate CreateFits(s: Spec) {
    SettingsFit(s) && HooksFit(s.lifecycleHooks)
  }

  function EarlyError(s: Spec): (e: Option<NumberField>)
    ensures e.None? <==>
            && Fits(s.defaultCooldown) && Fits(s.defaultInstanceWarmup) && Fits(s.desiredCapacity)
            && Fits(s.healthCheckGracePeriod) && MaintenanceFits(s.instanceMaintenancePolicy)
  {
    First(NarrowError(DefaultCooldown, s.defaultCooldown),
    First(NarrowError(DefaultInstanceWarmup, s.defaultInstanceWarmup),
    First(NarrowError(DesiredCapacity, s.desiredCapacity),
    First(NarrowError(HealthCheckGracePeriod, s.healthCheckGracePeriod),
          MaintenanceError(s.instanceMaintenancePolicy)))))
  }

  function LateError(s: Spec): (e: Option<NumberField>)
    ensures e.None? <==>
            && Fits(s.maxInstanceLifetime) && Fits(s.maxSize) && Fits(s.minSize)
            && MixedFits(s.mixedInstancesPolicy)
  {
    First(NarrowError(MaxInstanceLifetime, s.maxInstanceLifetime),
    First(NarrowError(MaxSize, s.maxSize),
    First(NarrowError(MinSize, s.minSize),
          MixedError(s.mixedInstancesPolicy))))
  }

  /** The builders go through the fields in the same order; only the create builder stops at the
      lifecycle hooks half way. */
  function CreateError(s: Spec): (e: Option<NumberField>)
    ensures e.None? <==> CreateFits(s)
  {
    First(EarlyError(s), First(HooksError(s.lifecycleHooks), LateError(s)))
  }

  function UpdateError(s: Spec): (e: Option<NumberField>)
    ensures e.None? <==> SettingsFit(s)
  {
    First(EarlyError(s), LateError(s))
  }

  // ---- payloads -----------------------------------------------------------------------------

  function EncodeHook(h: LifecycleHookSpecification): Wire.LifecycleHookSpecification {
    Wire.LifecycleHookSpecification(
      h.defaultResult, Narrowed(h.heartbeatTimeout), h.lifecycleHookName, h.lifecycleTransition,
      h.notificationMetadata, h.notificationTargetARN, h.roleARN)
  }

  function EncodeHooks(l: Slice<LifecycleHookSpecification>): Slice<Wire.LifecycleHookSpecification> {
    if l.NilSlice? then NilSlice
    else Elems(seq(|l.elems|, i requires 0 <= i < |l.elems| => EncodeHook(l.elems[i])))
  }

  function EncodeTraffic(l: Slice<Option<TrafficSource>>): Slice<TrafficSource> {
    if l.NilSlice? then NilSlice
    else Elems(seq(|l.elems|, i requires 0 <= i < |l.elems| =>
           if l.elems[i].Some? then l.elems[i].value else TrafficSource(None, None)))
  }

  function DecodeTraffic(l: Slice<TrafficSource>): Slice<Option<TrafficSource>> {
    if l.NilSlice? then NilSlice
    else Elems(seq(|l.elems|, i requires 0 <= i < |l.elems| => Some(l.elems[i])))
  }

  function SettingsOf(s: Spec): Wire.Settings {
    Wire.Settings(
      s.name,
      EncodeDistributionOfZones(s.availabilityZoneDistribution),
      EncodeImpairment(s.availabilityZoneImpairmentPolicy),
      FillStrings(s.availabilityZones),
      s.capacityRebalance,
      EncodeReservation(s.capacityReservationSpecification),
      Narrowed(s.defaultCooldown),
      Narrowed(s.defaultInstanceWarmup),
      Narrowed(s.desiredCapacity),
      s.desiredCapacityType,
      Narrowed(s.healthCheckGracePeriod),
      s.healthCheckType,
      EncodeLifecyclePolicy(s.instanceLifecyclePolicy),
      EncodeMaintenance(s.instanceMaintenancePolicy),
      s.launchConfigurationName,
      s.launchTemplate,
      Narrowed(s.maxInstanceLifetime),
      Narrowed(s.maxSize),
      Narrowed(s.minSize),
      EncodeMixed(s.mixedInstancesPolicy),
      s.newInstancesProtectedFromScaleIn,
      s.placementGroup,
      s.serviceLinkedRoleARN,
      FillStrings(s.terminationPolicies),
      s.vpcZoneIdentifier)
  }

  function CreateInputOf(s: Spec): Wire.CreateInput {
    Wire.CreateInput(
      SettingsOf(s),
      s.instanceID,
      EncodeHooks(s.lifecycleHooks),
      FillStrings(s.loadBalancerNames),
      s.skipZonalShiftValidation,
      s.tags,
      FillStrings(s.targetGroupARNs),
      EncodeTraffic(s.trafficSources))
  }

  function UpdateInputOf(s: Spec): Wire.UpdateInput {
    Wire.UpdateInput(SettingsOf(s), s.skipZonalShiftValidation)
  }

  /** The slots that the builders dereference. */
  predicate SettingsFilled(s: Spec) {
    MixedFilled(s.mixedInstancesPolicy)
  }

  predicate CreateFilled(s: Spec) {
    SettingsFilled(s) && NoNilSlots(s.trafficSources)
  }

  // ---- the described group, read back into a copy of the resource ---------------------------

  function Found(s: Spec, g: Wire.Group): Spec {
    var w := g.settings;
    s.(name := w.name,
       availabilityZoneDistribution := DecodeDistributionOfZones(w.availabilityZoneDistribution),
       availabilityZoneImpairmentPolicy := DecodeImpairment(w.availabilityZoneImpairmentPolicy),
       availabilityZones := PointStrings(w.availabilityZones),
       capacityRebalance := w.capacityRebalance,
       capacityReservationSpecification := DecodeReservation(w.capacityReservationSpecification),
       defaultCooldown := Widened(w.defaultCooldown),
       defaultInstanceWarmup := Widened(w.defaultInstanceWarmup),
       desiredCapacity := Widened(w.desiredCapacity),
       desiredCapacityType := w.desiredCapacityType,
       healthCheckGracePeriod := Widened(w.healthCheckGracePeriod),
       healthCheckType := w.healthCheckType,
       instanceLifecyclePolicy := DecodeLifecyclePolicy(w.instanceLifecyclePolicy),
       instanceMaintenancePolicy := DecodeMaintenance(w.instanceMaintenancePolicy),
       launchConfigurationName := w.launchConfigurationName,
       launchTemplate := w.launchTemplate,
       loadBalancerNames := PointStrings(g.loadBalancerNames),
       maxInstanceLifetime := Widened(w.maxInstanceLifetime),
       maxSize := Widened(w.maxSize),
       minSize := Widened(w.minSize),
       mixedInstancesPolicy := DecodeMixed(w.mixedInstancesPolicy),
       newInstancesProtectedFromScaleIn := w.newInstancesProtectedFromScaleIn,
       placementGroup := w.placementGroup,
       serviceLinkedRoleARN := w.serviceLinkedRoleARN,
       tags := g.tags,
       targetGroupARNs := PointStrings(g.targetGroupARNs),
       terminationPolicies := PointStrings(w.terminationPolicies),
       trafficSources := DecodeTraffic(g.trafficSources),
       vpcZoneIdentifier := w.vpcZoneIdentifier)
  }

  /** The part of a spec that a describe answer never touches. */
  datatype Untouched = Untouched(
    instanceID: Option<string>,
    instanceRef: Option<Reference>,
    lifecycleHooks: Slice<LifecycleHookSpecification>,
    serviceLinkedRoleRef: Option<Reference>,
    skipZonalShiftValidation: Option<bool>,
    targetGroupRefs: Slice<Option<Reference>>)

  function UntouchedPart(s: Spec): Untouched {
    Untouched(s.instanceID, s.instanceRef, s.lifecycleHooks, s.serviceLinkedRoleRef,
              s.skipZonalShiftValidation, s.targetGroupRefs)
  }

  /** A describe answer splits the spec exactly: two resources that agree on the six untouched fields
      read the same group as the same spec, so no other desired value survives the read; and the six
      are still those of the resource it was read into. */
  lemma FoundSplitsSpec(s: Spec, t: Spec, g: Wire.Group)
    ensures UntouchedPart(Found(s, g)) == UntouchedPart(s)
    ensures Found(s, g) == Found(t, g) <==> UntouchedPart(s) == UntouchedPart(t)
  {
  }

  // ---- servers ------------------------------------------------------------------------------

  /** A server that stores what the create request says and describes it unchanged. How it lists the
      tags is left open. */
  function Echo(input: Wire.CreateInput, arn: Option<string>, tags: Slice<Tag>): Wire.Group {
    Wire.Group(input.settings, arn, input.loadBalancerNames, tags, input.targetGroupARNs,
               input.trafficSources, None, None)
  }

  function Over<T>(sent: Option<T>, stored: Option<T>): Option<T> {
    if sent.Some? then sent else stored
  }

  function OverList<T>(sent: Slice<T>, stored: Slice<T>): Slice<T> {
    if sent.Elems? then sent else stored
  }

  /** A server that replaces every field the update request carries, whole. The name selects the
      group and is never replaced. */
  function Replaced(g: Wire.Settings, u: Wire.Settings): Wire.Settings {
    Wire.Settings(
      g.name,
      Over(u.availabilityZoneDistribution, g.availabilityZoneDistribution),
      Over(u.availabilityZoneImpairmentPolicy, g.availabilityZoneImpairmentPolicy),
      OverList(u.availabilityZones, g.availabilityZones),
      Over(u.capacityRebalance, g.capacityRebalance),
      Over(u.capacityReservationSpecification, g.capacityReservationSpecification),
      Over(u.defaultCooldown, g.defaultCooldown),
      Over(u.defaultInstanceWarmup, g.defaultInstanceWarmup),
      Over(u.desiredCapacity, g.desiredCapacity),
      Over(u.desiredCapacityType, g.desiredCapacityType),
      Over(u.healthCheckGracePeriod, g.healthCheckGracePeriod),
      Over(u.healthCheckType, g.healthCheckType),
      Over(u.instanceLifecyclePolicy, g.instanceLifecyclePolicy),
      Over(u.instanceMaintenancePolicy, g.instanceMaintenancePolicy),
      Over(u.launchConfigurationName, g.launchConfigurationName),
      Over(u.launchTemplate, g.launchTemplate),
      Over(u.maxInstanceLifetime, g.maxInstanceLifetime),
      Over(u.maxSize, g.maxSize),
      Over(u.minSize, g.minSize),
      Over(u.mixedInstancesPolicy, g.mixedInstancesPolicy),
      Over(u.newInstancesProtectedFromScaleIn, g.newInstancesProtectedFromScaleIn),
      Over(u.placementGroup, g.placementGroup),
      Over(u.serviceLinkedRoleARN, g.serviceLinkedRoleARN),
      OverList(u.terminationPolicies, g.terminationPolicies),
      Over(u.vpcZoneIdentifier, g.vpcZoneIdentifier))
  }

  function Updated(g: Wire.Group, u: Wire.UpdateInput): Wire.Group {
    g.(settings := Replaced(g.settings, u.settings))
  }
}
