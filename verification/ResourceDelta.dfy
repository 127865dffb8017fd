/** `newResourceDelta` (delta.go) and the two questions that the update step asks of its result.

    Three comparisons come from libraries that are not part of this model. `HasNilDifference` is taken
    as "exactly one of the two is nil", and `equality.Semantic` as structural equality that takes nil
    and empty slices as equal. `SliceStringPEqual` stays a parameter, `eq`: it is reflexive and
    symmetric, and nothing else is assumed of it. */
module ResourceDelta {
  import opened Basics
  import Api
  import opened Codec
  import opened TagLists

  type StringsEq = (seq<Option<string>>, seq<Option<string>>) -> bool

  ghost predicate Reflexive(eq: StringsEq) {
    forall x :: eq(x, x)
  }

  ghost predicate Symmetric(eq: StringsEq) {
    forall x, y :: eq(x, y) == eq(y, x)
  }

  /** The compared fields of the spec, in the order of the comparison. */
  datatype Field =
    | AvailabilityZoneDistribution | AvailabilityZoneImpairmentPolicy | AvailabilityZones | CapacityRebalance
    | CapacityReservationSpecification | DefaultCooldown | DefaultInstanceWarmup | DesiredCapacity
    | DesiredCapacityType | HealthCheckGracePeriod | HealthCheckType | InstanceID | InstanceLifecyclePolicy
    | InstanceMaintenancePolicy | InstanceRef | LaunchConfigurationName | LaunchTemplate
    | LifecycleHookSpecificationList | LoadBalancerNames | MaxInstanceLifetime | MaxSize | MinSize
    | MixedInstancesPolicy | Name | NewInstancesProtectedFromScaleIn | PlacementGroup | ServiceLinkedRoleARN
    | ServiceLinkedRoleRef | SkipZonalShiftValidation | Tags | TargetGroupARNs | TargetGroupRefs
    | TerminationPolicies | TrafficSources | VPCZoneIdentifier

  const FIELD_COUNT: nat := 35

  function FieldAt(i: nat): Field
    requires i < FIELD_COUNT
  {
    match i
    case 0 => AvailabilityZoneDistribution
    case 1 => AvailabilityZoneImpairmentPolicy
    case 2 => AvailabilityZones
    case 3 => CapacityRebalance
    case 4 => CapacityReservationSpecification
    case 5 => DefaultCooldown
    case 6 => DefaultInstanceWarmup
    case 7 => DesiredCapacity
    case 8 => DesiredCapacityType
    case 9 => HealthCheckGracePeriod
    case 10 => HealthCheckType
    case 11 => InstanceID
    case 12 => InstanceLifecyclePolicy
    case 13 => InstanceMaintenancePolicy
    case 14 => InstanceRef
    case 15 => LaunchConfigurationName
    case 16 => LaunchTemplate
    case 17 => LifecycleHookSpecificationList
    case 18 => LoadBalancerNames
    case 19 => MaxInstanceLifetime
    case 20 => MaxSize
    case 21 => MinSize
    case 22 => MixedInstancesPolicy
    case 23 => Name
    case 24 => NewInstancesProtectedFromScaleIn
    case 25 => PlacementGroup
    case 26 => ServiceLinkedRoleARN
    case 27 => ServiceLinkedRoleRef
    case 28 => SkipZonalShiftValidation
    case 29 => Tags
    case 30 => TargetGroupARNs
    case 31 => TargetGroupRefs
    case 32 => TerminationPolicies
    case 33 => TrafficSources
    case _ => VPCZoneIdentifier
  }

  /** A dotted path: "" or "Spec.<field>" followed by at most three names below that field. */
  datatype Path = Whole | At(field: Field, below: Place)

  datatype Place = Here | Under(x: Name) | Under2(x: Name, y: Name) | Under3(x: Name, y: Name, z: Name)

  datatype Name =
    | CapacityDistributionStrategy | ImpairedZoneHealthCheckBehavior | ZonalShiftEnabled
    | CapacityReservationPreference | CapacityReservationTarget | CapacityReservationIDs
    | CapacityReservationResourceGroupARNs | RetentionTriggers | TerminateHookAbandon | MaxHealthyPercentage
    | MinHealthyPercentage | LaunchTemplateName | Version | InstancesDistribution | OnDemandAllocationStrategy
    | OnDemandBaseCapacity | OnDemandPercentageAboveBaseCapacity | SpotAllocationStrategy | SpotInstancePools
    | SpotMaxPrice | Template | LaunchTemplateSpecification | Overrides

  predicate Prefix(above: Place, below: Place) {
    match above
    case Here => true
    case Under(x) => !below.Here? && below.x == x
    case Under2(x, y) => (below.Under2? || below.Under3?) && below.x == x && below.y == y
    case Under3(_, _, _) => below == above
  }

  /** `Path.Contains`: the subject is a component-wise prefix. */
  predicate Contains(p: Path, subject: Path) {
    subject.Whole? || (p.At? && p.field == subject.field && Prefix(subject.below, p.below))
  }

  predicate DifferentAt(d: seq<Path>, subject: Path) {
    exists i | 0 <= i < |d| :: Contains(d[i], subject)
  }

  predicate DifferentExcept(d: seq<Path>, except: Path) {
    exists i | 0 <= i < |d| :: !Contains(d[i], except)
  }

  // ---- one comparison at a time -------------------------------------------------------------

  function Report(differ: bool, p: Path): seq<Path> {
    if differ then [p] else []
  }

  predicate SameStrings(a: Api.StringList, b: Api.StringList, eq: StringsEq) {
    |a.Items()| == |b.Items()| && (|a.Items()| > 0 ==> eq(a.Items(), b.Items()))
  }

  function ZonesDelta(a: Option<Api.AvailabilityZoneDistribution>,
                      b: Option<Api.AvailabilityZoneDistribution>): seq<Path> {
    if a.None? || b.None? then Report(a != b, At(AvailabilityZoneDistribution, Here))
    else Report(a.value.capacityDistributionStrategy != b.value.capacityDistributionStrategy,
                At(AvailabilityZoneDistribution, Under(CapacityDistributionStrategy)))
  }

  function ImpairmentDelta(a: Option<Api.AvailabilityZoneImpairmentPolicy>,
                           b: Option<Api.AvailabilityZoneImpairmentPolicy>): seq<Path> {
    if a.None? || b.None? then Report(a != b, At(AvailabilityZoneImpairmentPolicy, Here))
    else (Report(a.value.impairedZoneHealthCheckBehavior != b.value.impairedZoneHealthCheckBehavior,
                At(AvailabilityZoneImpairmentPolicy, Under(ImpairedZoneHealthCheckBehavior)))
       + Report(a.value.zonalShiftEnabled != b.value.zonalShiftEnabled,
                At(AvailabilityZoneImpairmentPolicy, Under(ZonalShiftEnabled))))
  }

  function TargetDelta(a: Option<Api.CapacityReservationTarget>, b: Option<Api.CapacityReservationTarget>,
                       eq: StringsEq): seq<Path> {
    if a.None? || b.None? then Report(a != b, At(CapacityReservationSpecification, Under(CapacityReservationTarget)))
    else (Report(!SameStrings(a.value.capacityReservationIDs, b.value.capacityReservationIDs, eq),
                At(CapacityReservationSpecification, Under2(CapacityReservationTarget, CapacityReservationIDs)))
       + Report(!SameStrings(a.value.capacityReservationResourceGroupARNs, b.value.capacityReservationResourceGroupARNs,
                             eq),
                At(CapacityReservationSpecification,
                   Under2(CapacityReservationTarget, CapacityReservationResourceGroupARNs))))
  }

  function ReservationDelta(a: Option<Api.CapacityReservationSpecification>,
                            b: Option<Api.CapacityReservationSpecification>,
                            eq: StringsEq): seq<Path> {
    if a.None? || b.None? then Report(a != b, At(CapacityReservationSpecification, Here))
    else (Report(a.value.capacityReservationPreference != b.value.capacityReservationPreference,
                At(CapacityReservationSpecification, Under(CapacityReservationPreference)))
       + TargetDelta(a.value.capacityReservationTarget, b.value.capacityReservationTarget, eq))
  }

  function LifecycleDelta(a: Option<Api.InstanceLifecyclePolicy>, b: Option<Api.InstanceLifecyclePolicy>): seq<Path> {
    if a.None? || b.None? then Report(a != b, At(InstanceLifecyclePolicy, Here))
    else
      var x, y := a.value.retentionTriggers, b.value.retentionTriggers;
      if x.None? || y.None? then Report(x != y, At(InstanceLifecyclePolicy, Under(RetentionTriggers)))
      else Report(x.value.terminateHookAbandon != y.value.terminateHookAbandon,
                  At(InstanceLifecyclePolicy, Under2(RetentionTriggers, TerminateHookAbandon)))
  }

  function MaintenanceDelta(a: Option<Api.InstanceMaintenancePolicy>,
                            b: Option<Api.InstanceMaintenancePolicy>): seq<Path> {
    if a.None? || b.None? then Report(a != b, At(InstanceMaintenancePolicy, Here))
    else (Report(a.value.maxHealthyPercentage != b.value.maxHealthyPercentage,
                At(InstanceMaintenancePolicy, Under(MaxHealthyPercentage)))
       + Report(a.value.minHealthyPercentage != b.value.minHealthyPercentage,
                At(InstanceMaintenancePolicy, Under(MinHealthyPercentage))))
  }

  /** Used for the group's own launch template and for the one of the mixed-instances policy. */
  function TemplateDelta(at: Path, nameAt: Path, versionAt: Path, a: Option<Api.LaunchTemplateSpecification>,
                         b: Option<Api.LaunchTemplateSpecification>): seq<Path> {
    if a.None? || b.None? then Report(a != b, at)
    else (Report(a.value.launchTemplateName != b.value.launchTemplateName, nameAt)
          + Report(a.value.version != b.value.version, versionAt))
  }

  function GroupTemplateDelta(a: Option<Api.LaunchTemplateSpecification>,
                              b: Option<Api.LaunchTemplateSpecification>): seq<Path> {
    TemplateDelta(At(Field.LaunchTemplate, Here), At(Field.LaunchTemplate, Under(LaunchTemplateName)),
                  At(Field.LaunchTemplate, Under(Version)), a, b)
  }

  function MixedSpecificationDelta(a: Option<Api.LaunchTemplateSpecification>,
                                   b: Option<Api.LaunchTemplateSpecification>): seq<Path> {
    TemplateDelta(At(MixedInstancesPolicy, Under2(Template, Name.LaunchTemplateSpecification)),
                  At(MixedInstancesPolicy, Under3(Template, Name.LaunchTemplateSpecification, LaunchTemplateName)),
                  At(MixedInstancesPolicy, Under3(Template, Name.LaunchTemplateSpecification, Version)), a, b)
  }

  function DistributedReport(differ: bool, n: Name): seq<Path> {
    Report(differ, At(MixedInstancesPolicy, Under2(Name.InstancesDistribution, n)))
  }

  function DistributedDelta(x: Api.InstancesDistribution, y: Api.InstancesDistribution): seq<Path> {
    DistributedReport(x.onDemandAllocationStrategy != y.onDemandAllocationStrategy, OnDemandAllocationStrategy)
    + DistributedReport(x.onDemandBaseCapacity != y.onDemandBaseCapacity, OnDemandBaseCapacity)
    + DistributedReport(x.onDemandPercentageAboveBaseCapacity != y.onDemandPercentageAboveBaseCapacity,
                        OnDemandPercentageAboveBaseCapacity)
    + DistributedReport(x.spotAllocationStrategy != y.spotAllocationStrategy, SpotAllocationStrategy)
    + DistributedReport(x.spotInstancePools != y.spotInstancePools, SpotInstancePools)
    + DistributedReport(x.spotMaxPrice != y.spotMaxPrice, SpotMaxPrice)
  }

  function DistributionDelta(a: Option<Api.InstancesDistribution>, b: Option<Api.InstancesDistribution>): seq<Path> {
    if a.None? || b.None? then Report(a != b, At(MixedInstancesPolicy, Under(Name.InstancesDistribution)))
    else DistributedDelta(a.value, b.value)
  }

  predicate OverridesDiffer(a: Slice<Option<Api.LaunchTemplateOverrides>>,
                            b: Slice<Option<Api.LaunchTemplateOverrides>>) {
    |a.Items()| != |b.Items()| || (|a.Items()| > 0 && NormalOverrides(a) != NormalOverrides(b))
  }

  function MixedTemplateDelta(a: Option<Api.LaunchTemplate>, b: Option<Api.LaunchTemplate>): seq<Path> {
    if a.None? || b.None? then Report(a != b, At(MixedInstancesPolicy, Under(Template)))
    else (MixedSpecificationDelta(a.value.launchTemplateSpecification, b.value.launchTemplateSpecification)
       + Report(OverridesDiffer(a.value.overrides, b.value.overrides),
                At(MixedInstancesPolicy, Under2(Template, Overrides))))
  }

  function MixedDelta(a: Option<Api.MixedInstancesPolicy>, b: Option<Api.MixedInstancesPolicy>): seq<Path> {
    if a.None? || b.None? then Report(a != b, At(MixedInstancesPolicy, Here))
    else (DistributionDelta(a.value.instancesDistribution, b.value.instancesDistribution)
       + MixedTemplateDelta(a.value.launchTemplate, b.value.launchTemplate))
  }

  predicate ItemsDiffer<T(==)>(a: Slice<T>, b: Slice<T>) {
    |a.Items()| != |b.Items()| || (|a.Items()| > 0 && Normal(a) != Normal(b))
  }

  /** The fields that hold a struct are compared below the field when both sides have it. */
  predicate Nested(f: Field) {
    || f == AvailabilityZoneDistribution || f == AvailabilityZoneImpairmentPolicy
    || f == CapacityReservationSpecification || f == InstanceLifecyclePolicy
    || f == InstanceMaintenancePolicy || f == Field.LaunchTemplate || f == MixedInstancesPolicy
  }

  function NestedDelta(f: Field, a: Api.Spec, b: Api.Spec, eq: StringsEq): seq<Path>
    requires Nested(f)
  {
    match f
    case AvailabilityZoneDistribution => ZonesDelta(a.availabilityZoneDistribution, b.availabilityZoneDistribution)
    case AvailabilityZoneImpairmentPolicy =>
      ImpairmentDelta(a.availabilityZoneImpairmentPolicy, b.availabilityZoneImpairmentPolicy)
    case CapacityReservationSpecification =>
      ReservationDelta(a.capacityReservationSpecification, b.capacityReservationSpecification, eq)
    case InstanceLifecyclePolicy => LifecycleDelta(a.instanceLifecyclePolicy, b.instanceLifecyclePolicy)
    case InstanceMaintenancePolicy => MaintenanceDelta(a.instanceMaintenancePolicy, b.instanceMaintenancePolicy)
    case LaunchTemplate => GroupTemplateDelta(a.launchTemplate, b.launchTemplate)
    case MixedInstancesPolicy => MixedDelta(a.mixedInstancesPolicy, b.mixedInstancesPolicy)
  }

  predicate Listed(f: Field) {
    || f == AvailabilityZones || f == LifecycleHookSpecificationList || f == LoadBalancerNames || f == Tags
    || f == TargetGroupARNs || f == TargetGroupRefs || f == TerminationPolicies || f == TrafficSources
  }

  predicate ListDiffers(f: Field, a: Api.Spec, b: Api.Spec, eq: StringsEq)
    requires Listed(f)
  {
    match f
    case AvailabilityZones => !SameStrings(a.availabilityZones, b.availabilityZones, eq)
    case LifecycleHookSpecificationList => ItemsDiffer(a.lifecycleHooks, b.lifecycleHooks)
    case LoadBalancerNames => !SameStrings(a.loadBalancerNames, b.loadBalancerNames, eq)
    case Tags => TagMap(a.tags.Items()) != TagMap(b.tags.Items())
    case TargetGroupARNs => !SameStrings(a.targetGroupARNs, b.targetGroupARNs, eq)
    case TargetGroupRefs => Normal(a.targetGroupRefs) != Normal(b.targetGroupRefs)
    case TerminationPolicies => !SameStrings(a.terminationPolicies, b.terminationPolicies, eq)
    case TrafficSources => ItemsDiffer(a.trafficSources, b.trafficSources)
  }

  /** The other fields are single pointers, compared by what they point to. */
  datatype Scalar =
    | Text(text: Option<string>) | Number(number: Option<int64>) | Flag(flag: Option<bool>)
    | Ref(ref: Option<Api.Reference>)

  function ScalarAt(f: Field, s: Api.Spec): Scalar
    requires !Nested(f) && !Listed(f)
  {
    match f
    case CapacityRebalance => Flag(s.capacityRebalance)
    case DefaultCooldown => Number(s.defaultCooldown)
    case DefaultInstanceWarmup => Number(s.defaultInstanceWarmup)
    case DesiredCapacity => Number(s.desiredCapacity)
    case DesiredCapacityType => Text(s.desiredCapacityType)
    case HealthCheckGracePeriod => Number(s.healthCheckGracePeriod)
    case HealthCheckType => Text(s.healthCheckType)
    case InstanceID => Text(s.instanceID)
    case InstanceRef => Ref(s.instanceRef)
    case LaunchConfigurationName => Text(s.launchConfigurationName)
    case MaxInstanceLifetime => Number(s.maxInstanceLifetime)
    case MaxSize => Number(s.maxSize)
    case MinSize => Number(s.minSize)
    case Name => Text(s.name)
    case NewInstancesProtectedFromScaleIn => Flag(s.newInstancesProtectedFromScaleIn)
    case PlacementGroup => Text(s.placementGroup)
    case ServiceLinkedRoleARN => Text(s.serviceLinkedRoleARN)
    case ServiceLinkedRoleRef => Ref(s.serviceLinkedRoleRef)
    case SkipZonalShiftValidation => Flag(s.skipZonalShiftValidation)
    case VPCZoneIdentifier => Text(s.vpcZoneIdentifier)
  }

  predicate IsSet(x: Scalar) {
    match x
    case Text(t) => t.Some?
    case Number(n) => n.Some?
    case Flag(b) => b.Some?
    case Ref(r) => r.Some?
  }

  /** What the comparison reports at one field. */
  function FieldDelta(f: Field, a: Api.Spec, b: Api.Spec, eq: StringsEq): seq<Path> {
    if Nested(f) then NestedDelta(f, a, b, eq)
    else Report(if Listed(f) then ListDiffers(f, a, b, eq) else ScalarAt(f, a) != ScalarAt(f, b), At(f, Here))
  }

  /** The parts of the first `n` fields, one after the other. */
  function Joined(n: nat, part: Field -> seq<Path>): seq<Path>
    requires n <= FIELD_COUNT
  {
    if n == 0 then [] else Joined(n - 1, part) + part(FieldAt(n - 1))
  }

  function Part(a: Api.Spec, b: Api.Spec, eq: StringsEq): Field -> seq<Path> {
    f => FieldDelta(f, a, b, eq)
  }

  function SpecDelta(a: Api.Spec, b: Api.Spec, eq: StringsEq): seq<Path> {
    Joined(FIELD_COUNT, Part(a, b, eq))
  }

  // ---- the report as a whole ----------------------------------------------------------------

  function Rank(f: Field): (i: nat)
    ensures i < FIELD_COUNT && FieldAt(i) == f
  {
    match f
    case AvailabilityZoneDistribution => 0
    case AvailabilityZoneImpairmentPolicy => 1
    case AvailabilityZones => 2
    case CapacityRebalance => 3
    case CapacityReservationSpecification => 4
    case DefaultCooldown => 5
    case DefaultInstanceWarmup => 6
    case DesiredCapacity => 7
    case DesiredCapacityType => 8
    case HealthCheckGracePeriod => 9
    case HealthCheckType => 10
    case InstanceID => 11
    case InstanceLifecyclePolicy => 12
    case InstanceMaintenancePolicy => 13
    case InstanceRef => 14
    case LaunchConfigurationName => 15
    case LaunchTemplate => 16
    case LifecycleHookSpecificationList => 17
    case LoadBalancerNames => 18
    case MaxInstanceLifetime => 19
    case MaxSize => 20
    case MinSize => 21
    case MixedInstancesPolicy => 22
    case Name => 23
    case NewInstancesProtectedFromScaleIn => 24
    case PlacementGroup => 25
    case ServiceLinkedRoleARN => 26
    case ServiceLinkedRoleRef => 27
    case SkipZonalShiftValidation => 28
    case Tags => 29
    case TargetGroupARNs => 30
    case TargetGroupRefs => 31
    case TerminationPolicies => 32
    case TrafficSources => 33
    case VPCZoneIdentifier => 34
  }

  lemma RankOfFieldAt(i: nat)
    requires i < FIELD_COUNT
    ensures Rank(FieldAt(i)) == i
  {
  }

  lemma {:induction false} EmptyUpTo(n: nat, part: Field -> seq<Path>)
    requires n <= FIELD_COUNT
    ensures Joined(n, part) == [] <==> forall f | Rank(f) < n :: part(f) == []
  {
    hide FieldAt, Rank;
    if n > 0 {
      EmptyUpTo(n - 1, part);
      RankOfFieldAt(n - 1);
      assert forall f | Rank(f) == n - 1 :: f == FieldAt(n - 1);
    }
  }

  /** A field without differences. */
  predicate Agree(f: Field, a: Api.Spec, b: Api.Spec, eq: StringsEq) {
    FieldDelta(f, a, b, eq) == []
  }

  /** The report is empty exactly when every field's part is. */
  lemma EmptyDelta(a: Api.Spec, b: Api.Spec, eq: StringsEq)
    ensures SpecDelta(a, b, eq) == [] <==> forall f :: Agree(f, a, b, eq)
  {
    var part := Part(a, b, eq);
    EmptyUpTo(FIELD_COUNT, part);
    assert forall f :: part(f) == [] <==> Agree(f, a, b, eq);
  }

  lemma {:induction false} ReportedUpTo(n: nat, part: Field -> seq<Path>, p: Path)
    requires n <= FIELD_COUNT
    requires forall f, q | q in part(f) :: q.At? && q.field == f
    ensures p in Joined(n, part) <==> p.At? && Rank(p.field) < n && p in part(p.field)
  {
    hide FieldAt, Rank;
    if n > 0 {
      ReportedUpTo(n - 1, part, p);
      RankOfFieldAt(n - 1);
    }
  }

  /** A reported path lies at some field, and that field's own part of the report holds it. */
  lemma Reported(a: Api.Spec, b: Api.Spec, eq: StringsEq, p: Path)
    ensures p in SpecDelta(a, b, eq) <==> p.At? && p in FieldDelta(p.field, a, b, eq)
  {
    PartShape(a, b, eq);
    ReportedUpTo(FIELD_COUNT, Part(a, b, eq), p);
  }

  // ---- soundness and completeness -----------------------------------------------------------

  /** A spec with the lists that are compared loosely blanked out, and nil told from empty nowhere
      else. */
  function Rest(s: Api.Spec): Api.Spec {
    s.(availabilityZones := NilSlice,
       capacityReservationSpecification := BlankReservation(s.capacityReservationSpecification),
       lifecycleHooks := Normal(s.lifecycleHooks),
       loadBalancerNames := NilSlice,
       mixedInstancesPolicy := NormalMixed(s.mixedInstancesPolicy),
       tags := NilSlice,
       targetGroupARNs := NilSlice,
       targetGroupRefs := Normal(s.targetGroupRefs),
       terminationPolicies := NilSlice,
       trafficSources := Normal(s.trafficSources))
  }

  function BlankReservation(o: Option<Api.CapacityReservationSpecification>)
    : Option<Api.CapacityReservationSpecification>
  {
    if o.None? || o.value.capacityReservationTarget.None? then o
    else Some(o.value.(capacityReservationTarget := Some(Api.CapacityReservationTarget(NilSlice, NilSlice))))
  }

  function NormalMixed(o: Option<Api.MixedInstancesPolicy>): Option<Api.MixedInstancesPolicy> {
    if o.None? || o.value.launchTemplate.None? then o
    else Some(o.value.(launchTemplate := Some(o.value.launchTemplate.value.(
                overrides := NormalOverrides(o.value.launchTemplate.value.overrides)))))
  }

  predicate SameReservedLists(a: Option<Api.CapacityReservationSpecification>,
                              b: Option<Api.CapacityReservationSpecification>, eq: StringsEq) {
    a.Some? && a.value.capacityReservationTarget.Some? && b.Some? && b.value.capacityReservationTarget.Some? ==>
      var x, y := a.value.capacityReservationTarget.value, b.value.capacityReservationTarget.value;
      && SameStrings(x.capacityReservationIDs, y.capacityReservationIDs, eq)
      && SameStrings(x.capacityReservationResourceGroupARNs, y.capacityReservationResourceGroupARNs, eq)
  }

  /** Two specs mean the same: equal as records, up to nil and empty lists, with tag lists read as
      maps and the string lists compared by `eq`. */
  predicate Equivalent(a: Api.Spec, b: Api.Spec, eq: StringsEq) {
    && Rest(a) == Rest(b)
    && SameStrings(a.availabilityZones, b.availabilityZones, eq)
    && SameReservedLists(a.capacityReservationSpecification, b.capacityReservationSpecification, eq)
    && SameStrings(a.loadBalancerNames, b.loadBalancerNames, eq)
    && TagMap(a.tags.Items()) == TagMap(b.tags.Items())
    && SameStrings(a.targetGroupARNs, b.targetGroupARNs, eq)
    && SameStrings(a.terminationPolicies, b.terminationPolicies, eq)
  }

  lemma OverridesDifferIff(a: Slice<Option<Api.LaunchTemplateOverrides>>, b: Slice<Option<Api.LaunchTemplateOverrides>>)
    ensures OverridesDiffer(a, b) <==> NormalOverrides(a) != NormalOverrides(b)
  {
    var x, y := NormalOverrides(a).elems, NormalOverrides(b).elems;
    assert |x| == |a.Items()| && |y| == |b.Items()|;
    if |x| == 0 && |y| == 0 {
      assert x == y;
    }
  }

  lemma NoMixedDelta(a: Option<Api.MixedInstancesPolicy>, b: Option<Api.MixedInstancesPolicy>)
    ensures MixedDelta(a, b) == [] <==> NormalMixed(a) == NormalMixed(b)
  {
    if a.Some? && b.Some? && a.value.launchTemplate.Some? && b.value.launchTemplate.Some? {
      OverridesDifferIff(a.value.launchTemplate.value.overrides, b.value.launchTemplate.value.overrides);
    }
  }

  lemma NoReservationDelta(a: Option<Api.CapacityReservationSpecification>,
                           b: Option<Api.CapacityReservationSpecification>, eq: StringsEq)
    ensures ReservationDelta(a, b, eq) == [] <==>
              BlankReservation(a) == BlankReservation(b) && SameReservedLists(a, b, eq)
  {
  }

  /** The nested fields hold no differences exactly when they are equal in normal form. */
  lemma NoNestedDelta(a: Api.Spec, b: Api.Spec, eq: StringsEq)
    ensures NestedDelta(AvailabilityZoneDistribution, a, b, eq) == [] <==>
              a.availabilityZoneDistribution == b.availabilityZoneDistribution
    ensures NestedDelta(AvailabilityZoneImpairmentPolicy, a, b, eq) == [] <==>
              a.availabilityZoneImpairmentPolicy == b.availabilityZoneImpairmentPolicy
    ensures NestedDelta(CapacityReservationSpecification, a, b, eq) == [] <==>
              && BlankReservation(a.capacityReservationSpecification)
                 == BlankReservation(b.capacityReservationSpecification)
              && SameReservedLists(a.capacityReservationSpecification, b.capacityReservationSpecification, eq)
    ensures NestedDelta(InstanceLifecyclePolicy, a, b, eq) == [] <==>
              a.instanceLifecyclePolicy == b.instanceLifecyclePolicy
    ensures NestedDelta(InstanceMaintenancePolicy, a, b, eq) == [] <==>
              a.instanceMaintenancePolicy == b.instanceMaintenancePolicy
    ensures NestedDelta(Field.LaunchTemplate, a, b, eq) == [] <==> a.launchTemplate == b.launchTemplate
    ensures NestedDelta(MixedInstancesPolicy, a, b, eq) == [] <==>
              NormalMixed(a.mixedInstancesPolicy) == NormalMixed(b.mixedInstancesPolicy)
  {
    NoReservationDelta(a.capacityReservationSpecification, b.capacityReservationSpecification, eq);
    NoMixedDelta(a.mixedInstancesPolicy, b.mixedInstancesPolicy);
  }

  lemma EquivalentAgrees(f: Field, a: Api.Spec, b: Api.Spec, eq: StringsEq)
    requires Equivalent(a, b, eq)
    ensures Agree(f, a, b, eq)
  {
    if Nested(f) {
      NoNestedDelta(a, b, eq);
    }
  }

  predicate SameNumbers(a: Api.Spec, b: Api.Spec) {
    && a.defaultCooldown == b.defaultCooldown
    && a.defaultInstanceWarmup == b.defaultInstanceWarmup
    && a.desiredCapacity == b.desiredCapacity
    && a.healthCheckGracePeriod == b.healthCheckGracePeriod
    && a.maxInstanceLifetime == b.maxInstanceLifetime
    && a.maxSize == b.maxSize
    && a.minSize == b.minSize
  }

  predicate SameTexts(a: Api.Spec, b: Api.Spec) {
    && a.desiredCapacityType == b.desiredCapacityType
    && a.healthCheckType == b.healthCheckType
    && a.instanceID == b.instanceID
    && a.launchConfigurationName == b.launchConfigurationName
    && a.name == b.name
    && a.placementGroup == b.placementGroup
    && a.serviceLinkedRoleARN == b.serviceLinkedRoleARN
    && a.vpcZoneIdentifier == b.vpcZoneIdentifier
  }

  predicate SameFlagsAndRefs(a: Api.Spec, b: Api.Spec) {
    && a.capacityRebalance == b.capacityRebalance
    && a.instanceRef == b.instanceRef
    && a.newInstancesProtectedFromScaleIn == b.newInstancesProtectedFromScaleIn
    && a.serviceLinkedRoleRef == b.serviceLinkedRoleRef
    && a.skipZonalShiftValidation == b.skipZonalShiftValidation
  }

  lemma AgreeingScalars(a: Api.Spec, b: Api.Spec, eq: StringsEq)
    requires forall f :: Agree(f, a, b, eq)
    ensures forall f | !Nested(f) && !Listed(f) :: ScalarAt(f, a) == ScalarAt(f, b)
  {
    forall f | !Nested(f) && !Listed(f)
      ensures ScalarAt(f, a) == ScalarAt(f, b)
    {
      assert Agree(f, a, b, eq);
    }
  }

  lemma EqualNumbers(a: Api.Spec, b: Api.Spec)
    requires forall f | !Nested(f) && !Listed(f) :: ScalarAt(f, a) == ScalarAt(f, b)
    ensures SameNumbers(a, b)
  {
    assert ScalarAt(DefaultCooldown, a) == ScalarAt(DefaultCooldown, b);
    assert ScalarAt(DefaultInstanceWarmup, a) == ScalarAt(DefaultInstanceWarmup, b);
    assert ScalarAt(DesiredCapacity, a) == ScalarAt(DesiredCapacity, b);
    assert ScalarAt(HealthCheckGracePeriod, a) == ScalarAt(HealthCheckGracePeriod, b);
    assert ScalarAt(MaxInstanceLifetime, a) == ScalarAt(MaxInstanceLifetime, b);
    assert ScalarAt(MaxSize, a) == ScalarAt(MaxSize, b);
    assert ScalarAt(MinSize, a) == ScalarAt(MinSize, b);
  }

  lemma EqualTexts(a: Api.Spec, b: Api.Spec)
    requires forall f | !Nested(f) && !Listed(f) :: ScalarAt(f, a) == ScalarAt(f, b)
    ensures SameTexts(a, b)
  {
    EqualEarlyTexts(a, b);
    EqualMiddleTexts(a, b);
    EqualLateTexts(a, b);
  }

  lemma EqualEarlyTexts(a: Api.Spec, b: Api.Spec)
    requires forall f | !Nested(f) && !Listed(f) :: ScalarAt(f, a) == ScalarAt(f, b)
    ensures a.desiredCapacityType == b.desiredCapacityType && a.healthCheckType == b.healthCheckType
    ensures a.instanceID == b.instanceID
  {
    assert ScalarAt(DesiredCapacityType, a) == ScalarAt(DesiredCapacityType, b);
    assert ScalarAt(HealthCheckType, a) == ScalarAt(HealthCheckType, b);
    assert ScalarAt(InstanceID, a) == ScalarAt(InstanceID, b);
  }

  lemma EqualMiddleTexts(a: Api.Spec, b: Api.Spec)
    requires forall f | !Nested(f) && !Listed(f) :: ScalarAt(f, a) == ScalarAt(f, b)
    ensures a.launchConfigurationName == b.launchConfigurationName && a.name == b.name
            && a.placementGroup == b.placementGroup
  {
    assert ScalarAt(LaunchConfigurationName, a) == ScalarAt(LaunchConfigurationName, b);
    assert ScalarAt(Field.Name, a) == ScalarAt(Field.Name, b);
    assert ScalarAt(PlacementGroup, a) == ScalarAt(PlacementGroup, b);
  }

  lemma EqualLateTexts(a: Api.Spec, b: Api.Spec)
    requires forall f | !Nested(f) && !Listed(f) :: ScalarAt(f, a) == ScalarAt(f, b)
    ensures a.serviceLinkedRoleARN == b.serviceLinkedRoleARN && a.vpcZoneIdentifier == b.vpcZoneIdentifier
  {
    assert ScalarAt(ServiceLinkedRoleARN, a) == ScalarAt(ServiceLinkedRoleARN, b);
    assert ScalarAt(VPCZoneIdentifier, a) == ScalarAt(VPCZoneIdentifier, b);
  }

  lemma EqualFlagsAndRefs(a: Api.Spec, b: Api.Spec)
    requires forall f | !Nested(f) && !Listed(f) :: ScalarAt(f, a) == ScalarAt(f, b)
    ensures SameFlagsAndRefs(a, b)
  {
    assert ScalarAt(CapacityRebalance, a) == ScalarAt(CapacityRebalance, b);
    assert ScalarAt(InstanceRef, a) == ScalarAt(InstanceRef, b);
    assert ScalarAt(NewInstancesProtectedFromScaleIn, a) == ScalarAt(NewInstancesProtectedFromScaleIn, b);
    assert ScalarAt(ServiceLinkedRoleRef, a) == ScalarAt(ServiceLinkedRoleRef, b);
    assert ScalarAt(SkipZonalShiftValidation, a) == ScalarAt(SkipZonalShiftValidation, b);
  }

  lemma AgreeingLists(a: Api.Spec, b: Api.Spec, eq: StringsEq)
    requires forall f :: Agree(f, a, b, eq)
    ensures forall f | Listed(f) :: !ListDiffers(f, a, b, eq)
    ensures forall f | Nested(f) :: NestedDelta(f, a, b, eq) == []
  {
    forall f
      ensures Listed(f) ==> !ListDiffers(f, a, b, eq)
      ensures Nested(f) ==> NestedDelta(f, a, b, eq) == []
    {
      assert Agree(f, a, b, eq);
    }
  }

  lemma AgreeingSpecs(a: Api.Spec, b: Api.Spec, eq: StringsEq)
    requires forall f :: Agree(f, a, b, eq)
    ensures Equivalent(a, b, eq)
  {
    hide NestedDelta, ScalarAt, TagMap, SameStrings, NormalMixed, BlankReservation, SameReservedLists, FieldDelta;
    NoNestedDelta(a, b, eq);
    AgreeingScalars(a, b, eq);
    EqualNumbers(a, b);
    EqualTexts(a, b);
    EqualFlagsAndRefs(a, b);
    AgreeingLists(a, b, eq);
    assert !ListDiffers(AvailabilityZones, a, b, eq) && !ListDiffers(LifecycleHookSpecificationList, a, b, eq);
    assert !ListDiffers(LoadBalancerNames, a, b, eq) && !ListDiffers(Tags, a, b, eq);
    assert !ListDiffers(TargetGroupARNs, a, b, eq) && !ListDiffers(TargetGroupRefs, a, b, eq);
    assert !ListDiffers(TerminationPolicies, a, b, eq) && !ListDiffers(TrafficSources, a, b, eq);
  }

  /** The comparison is a decision: it reports nothing exactly when the two specs mean the same. */
  lemma DeltaDecidesEquivalence(a: Api.Spec, b: Api.Spec, eq: StringsEq)
    ensures SpecDelta(a, b, eq) == [] <==> Equivalent(a, b, eq)
  {
    EmptyDelta(a, b, eq);
    if Equivalent(a, b, eq) {
      forall f
        ensures Agree(f, a, b, eq)
      {
        EquivalentAgrees(f, a, b, eq);
      }
    } else if forall f :: Agree(f, a, b, eq) {
      AgreeingSpecs(a, b, eq);
    }
  }

  // ---- symmetry and shape -------------------------------------------------------------------

  lemma {:induction false} SameParts(n: nat, part: Field -> seq<Path>, part': Field -> seq<Path>)
    requires n <= FIELD_COUNT && forall f :: part(f) == part'(f)
    ensures Joined(n, part) == Joined(n, part')
  {
    if n > 0 {
      SameParts(n - 1, part, part');
    }
  }

  lemma SymmetricReservation(a: Option<Api.CapacityReservationSpecification>,
                             b: Option<Api.CapacityReservationSpecification>, eq: StringsEq)
    requires Symmetric(eq)
    ensures ReservationDelta(a, b, eq) == ReservationDelta(b, a, eq)
  {
  }

  lemma SymmetricMixed(a: Option<Api.MixedInstancesPolicy>, b: Option<Api.MixedInstancesPolicy>)
    ensures MixedDelta(a, b) == MixedDelta(b, a)
  {
    if a.Some? && b.Some? {
      SymmetricDistribution(a.value.instancesDistribution, b.value.instancesDistribution);
    }
  }

  lemma SymmetricDistribution(a: Option<Api.InstancesDistribution>, b: Option<Api.InstancesDistribution>)
    ensures DistributionDelta(a, b) == DistributionDelta(b, a)
  {
  }

  lemma SymmetricOthers(a: Api.Spec, b: Api.Spec, eq: StringsEq)
    ensures forall f | Nested(f) && f != CapacityReservationSpecification && f != MixedInstancesPolicy ::
              NestedDelta(f, a, b, eq) == NestedDelta(f, b, a, eq)
  {
  }

  lemma SymmetricLists(f: Field, a: Api.Spec, b: Api.Spec, eq: StringsEq)
    requires Listed(f) && Symmetric(eq)
    ensures ListDiffers(f, a, b, eq) == ListDiffers(f, b, a, eq)
  {
    hide TagMap;
  }

  lemma SymmetricAtField(f: Field, a: Api.Spec, b: Api.Spec, eq: StringsEq)
    requires Symmetric(eq)
    ensures FieldDelta(f, a, b, eq) == FieldDelta(f, b, a, eq)
  {
    hide ReservationDelta, MixedDelta, ListDiffers, ScalarAt, Symmetric;
    if Nested(f) {
      SymmetricReservation(a.capacityReservationSpecification, b.capacityReservationSpecification, eq);
      SymmetricMixed(a.mixedInstancesPolicy, b.mixedInstancesPolicy);
      SymmetricOthers(a, b, eq);
    } else if Listed(f) {
      SymmetricLists(f, a, b, eq);
    }
  }

  /** Which of the two resources is called desired does not matter. */
  lemma DeltaIsSymmetric(a: Api.Spec, b: Api.Spec, eq: StringsEq)
    requires Symmetric(eq)
    ensures SpecDelta(a, b, eq) == SpecDelta(b, a, eq)
  {
    forall f
      ensures Part(a, b, eq)(f) == Part(b, a, eq)(f)
    {
      SymmetricAtField(f, a, b, eq);
    }
    SameParts(FIELD_COUNT, Part(a, b, eq), Part(b, a, eq));
  }

  /** No path is reported twice, and none together with one below it. */
  predicate PrefixFree(d: seq<Path>) {
    forall i, j | 0 <= i < |d| && 0 <= j < |d| && i != j :: !Contains(d[i], d[j])
  }

  lemma Join(d: seq<Path>, e: seq<Path>)
    requires PrefixFree(d) && PrefixFree(e)
    requires forall p, q | p in d && q in e :: !Contains(p, q) && !Contains(q, p)
    ensures PrefixFree(d + e)
  {
    var all := d + e;
    assert forall i | 0 <= i < |all| :: all[i] == if i < |d| then d[i] else e[i - |d|];
    assert forall i | 0 <= i < |d| :: d[i] in d;
    assert forall i | 0 <= i < |e| :: e[i] in e;
  }

  predicate Headed(d: seq<Path>, f: Field, x: Name) {
    forall p | p in d :: p.At? && p.field == f && !p.below.Here? && p.below.x == x
  }

  /** The six names below the distribution, in order. */
  function Order(n: Name): nat {
    match n
    case OnDemandAllocationStrategy => 0
    case OnDemandBaseCapacity => 1
    case OnDemandPercentageAboveBaseCapacity => 2
    case SpotAllocationStrategy => 3
    case SpotInstancePools => 4
    case _ => 5
  }

  predicate Ascending(d: seq<Path>, k: nat) {
    PrefixFree(d) && forall p | p in d ::
      p.At? && p.field == MixedInstancesPolicy && p.below.Under2? && p.below.x == Name.InstancesDistribution
      && Order(p.below.y) < k
  }

  lemma AddDistributed(d: seq<Path>, k: nat, differ: bool, n: Name)
    requires Ascending(d, k) && Order(n) == k
    ensures Ascending(d + DistributedReport(differ, n), k + 1)
  {
    Join(d, DistributedReport(differ, n));
  }

  lemma DistributionShape(a: Option<Api.InstancesDistribution>, b: Option<Api.InstancesDistribution>)
    ensures PrefixFree(DistributionDelta(a, b))
            && Headed(DistributionDelta(a, b), MixedInstancesPolicy, Name.InstancesDistribution)
  {
    if a.Some? && b.Some? {
      DistributedShape(a.value, b.value);
    }
  }

  function FirstThree(x: Api.InstancesDistribution, y: Api.InstancesDistribution): seq<Path> {
    DistributedReport(x.onDemandAllocationStrategy != y.onDemandAllocationStrategy, OnDemandAllocationStrategy)
    + DistributedReport(x.onDemandBaseCapacity != y.onDemandBaseCapacity, OnDemandBaseCapacity)
    + DistributedReport(x.onDemandPercentageAboveBaseCapacity != y.onDemandPercentageAboveBaseCapacity,
                        OnDemandPercentageAboveBaseCapacity)
  }

  lemma FirstThreeShape(x: Api.InstancesDistribution, y: Api.InstancesDistribution)
    ensures Ascending(FirstThree(x, y), 3)
  {
    hide Ascending, DistributedReport;
    var differ := x.onDemandAllocationStrategy != y.onDemandAllocationStrategy;
    var base := x.onDemandBaseCapacity != y.onDemandBaseCapacity;
    var above := x.onDemandPercentageAboveBaseCapacity != y.onDemandPercentageAboveBaseCapacity;
    var r0 := DistributedReport(differ, OnDemandAllocationStrategy);
    NothingAscends();
    AddDistributed([], 0, differ, OnDemandAllocationStrategy);
    assert [] + r0 == r0;
    AddDistributed(r0, 1, base, OnDemandBaseCapacity);
    AddDistributed(r0 + DistributedReport(base, OnDemandBaseCapacity), 2, above, OnDemandPercentageAboveBaseCapacity);
  }

  lemma NothingAscends()
    ensures Ascending([], 0)
  {
  }

  lemma DistributedShape(x: Api.InstancesDistribution, y: Api.InstancesDistribution)
    ensures Ascending(DistributedDelta(x, y), 6)
  {
    hide Ascending, DistributedReport;
    var strategy := x.spotAllocationStrategy != y.spotAllocationStrategy;
    var pools := x.spotInstancePools != y.spotInstancePools;
    FirstThreeShape(x, y);
    var r2 := FirstThree(x, y);
    AddDistributed(r2, 3, strategy, SpotAllocationStrategy);
    var r3 := r2 + DistributedReport(strategy, SpotAllocationStrategy);
    AddDistributed(r3, 4, pools, SpotInstancePools);
    AddDistributed(r3 + DistributedReport(pools, SpotInstancePools), 5, x.spotMaxPrice != y.spotMaxPrice, SpotMaxPrice);
  }

  lemma MixedShape(a: Option<Api.MixedInstancesPolicy>, b: Option<Api.MixedInstancesPolicy>)
    ensures AtField(MixedDelta(a, b), MixedInstancesPolicy)
  {
    if a.Some? && b.Some? {
      var x, y := a.value.launchTemplate, b.value.launchTemplate;
      DistributionShape(a.value.instancesDistribution, b.value.instancesDistribution);
      MixedTemplateShape(x, y);
      Join(DistributionDelta(a.value.instancesDistribution, b.value.instancesDistribution), MixedTemplateDelta(x, y));
    }
  }

  lemma MixedTemplateShape(a: Option<Api.LaunchTemplate>, b: Option<Api.LaunchTemplate>)
    ensures PrefixFree(MixedTemplateDelta(a, b)) && Headed(MixedTemplateDelta(a, b), MixedInstancesPolicy, Template)
  {
    if a.Some? && b.Some? {
      var x, y := a.value.launchTemplateSpecification, b.value.launchTemplateSpecification;
      SpecificationShape(x, y);
      Join(MixedSpecificationDelta(x, y),
           Report(OverridesDiffer(a.value.overrides, b.value.overrides),
                  At(MixedInstancesPolicy, Under2(Template, Overrides))));
    }
  }

  lemma SpecificationShape(x: Option<Api.LaunchTemplateSpecification>, y: Option<Api.LaunchTemplateSpecification>)
    ensures PrefixFree(MixedSpecificationDelta(x, y))
            && Headed(MixedSpecificationDelta(x, y), MixedInstancesPolicy, Template)
    ensures forall p | p in MixedSpecificationDelta(x, y) ::
              !p.below.Under? && p.below.y == Name.LaunchTemplateSpecification
  {
  }

  /** What one field reports lies at that field and is prefix-free. */
  predicate AtField(d: seq<Path>, f: Field) {
    PrefixFree(d) && forall p | p in d :: p.At? && p.field == f
  }

  lemma ReservationShape(a: Option<Api.CapacityReservationSpecification>,
                         b: Option<Api.CapacityReservationSpecification>, eq: StringsEq)
    ensures AtField(ReservationDelta(a, b, eq), CapacityReservationSpecification)
  {
    if a.Some? && b.Some? {
      var x, y := a.value.capacityReservationTarget, b.value.capacityReservationTarget;
      TargetShape(x, y, eq);
      Join(Report(a.value.capacityReservationPreference != b.value.capacityReservationPreference,
                  At(CapacityReservationSpecification, Under(CapacityReservationPreference))),
           TargetDelta(x, y, eq));
    }
  }

  lemma TargetShape(x: Option<Api.CapacityReservationTarget>, y: Option<Api.CapacityReservationTarget>, eq: StringsEq)
    ensures PrefixFree(TargetDelta(x, y, eq))
    ensures Headed(TargetDelta(x, y, eq), CapacityReservationSpecification, Name.CapacityReservationTarget)
  {
  }

  lemma ZonesShape(a: Api.Spec, b: Api.Spec)
    ensures AtField(ZonesDelta(a.availabilityZoneDistribution, b.availabilityZoneDistribution),
                    AvailabilityZoneDistribution)
    ensures AtField(ImpairmentDelta(a.availabilityZoneImpairmentPolicy, b.availabilityZoneImpairmentPolicy),
                    AvailabilityZoneImpairmentPolicy)
  {
  }

  lemma LifecycleShape(a: Api.Spec, b: Api.Spec)
    ensures AtField(LifecycleDelta(a.instanceLifecyclePolicy, b.instanceLifecyclePolicy), InstanceLifecyclePolicy)
  {
  }

  lemma MaintenanceShape(a: Api.Spec, b: Api.Spec)
    ensures AtField(MaintenanceDelta(a.instanceMaintenancePolicy, b.instanceMaintenancePolicy),
                    InstanceMaintenancePolicy)
  {
  }

  lemma GroupTemplateShape(a: Api.Spec, b: Api.Spec)
    ensures AtField(GroupTemplateDelta(a.launchTemplate, b.launchTemplate), Field.LaunchTemplate)
  {
  }

  lemma FieldShape(f: Field, a: Api.Spec, b: Api.Spec, eq: StringsEq)
    ensures AtField(FieldDelta(f, a, b, eq), f)
  {
    hide AtField, ListDiffers, ScalarAt, TagMap;
    if !Nested(f) {
      ReportShape(FieldDelta(f, a, b, eq), f);
    } else if f == CapacityReservationSpecification {
      ReservationShape(a.capacityReservationSpecification, b.capacityReservationSpecification, eq);
    } else if f == MixedInstancesPolicy {
      MixedShape(a.mixedInstancesPolicy, b.mixedInstancesPolicy);
    } else {
      ZonesShape(a, b);
      LifecycleShape(a, b);
      MaintenanceShape(a, b);
      GroupTemplateShape(a, b);
    }
  }

  lemma ReportShape(d: seq<Path>, f: Field)
    requires d == [] || d == [At(f, Here)]
    ensures AtField(d, f)
  {
  }

  lemma PartShape(a: Api.Spec, b: Api.Spec, eq: StringsEq)
    ensures forall f :: AtField(Part(a, b, eq)(f), f)
  {
    forall f
      ensures AtField(Part(a, b, eq)(f), f)
    {
      FieldShape(f, a, b, eq);
    }
  }

  lemma {:induction false} PrefixFreeUpTo(n: nat, part: Field -> seq<Path>)
    requires n <= FIELD_COUNT && forall f :: AtField(part(f), f)
    ensures PrefixFree(Joined(n, part))
  {
    if n > 0 {
      PrefixFreeUpTo(n - 1, part);
      RankOfFieldAt(n - 1);
      var init, last := Joined(n - 1, part), part(FieldAt(n - 1));
      forall p | p in init
        ensures p.At? && p.field != FieldAt(n - 1)
      {
        ReportedUpTo(n - 1, part, p);
      }
      assert AtField(last, FieldAt(n - 1));
      Join(init, last);
    }
  }

  /** A difference in nil-ness at a parent suppresses everything below it. */
  lemma DeltaIsPrefixFree(a: Api.Spec, b: Api.Spec, eq: StringsEq)
    ensures PrefixFree(SpecDelta(a, b, eq))
  {
    PartShape(a, b, eq);
    PrefixFreeUpTo(FIELD_COUNT, Part(a, b, eq));
  }
}
