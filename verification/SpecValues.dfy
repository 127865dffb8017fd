/** A spec as a tree of scalars, structs and slices.

    Every field of every struct of a spec (zz_generated.deepcopy.go) is a pointer or a slice, and every
    element of a slice is a pointer. Forgetting the names of the types leaves a tree with one child per
    field or element; no two specs have the same tree. */
module SpecValues {
  import opened Basics
  import Api

  datatype Plain = Text(text: string) | Number(number: int64) | Flag(flag: bool) | Float(float: real)

  /** What a pointer or a slice stands for. */
  datatype Value = Nil | Leaf(plain: Plain) | Node(kids: seq<Value>)

  // ---- a spec as a tree -------------------------------------------------------------------

  function TextValue(o: Option<string>): Value {
    if o.None? then Nil else Leaf(Text(o.value))
  }

  function NumberValue(o: Option<int64>): Value {
    if o.None? then Nil else Leaf(Number(o.value))
  }

  function FlagValue(o: Option<bool>): Value {
    if o.None? then Nil else Leaf(Flag(o.value))
  }

  function FloatValue(o: Option<real>): Value {
    if o.None? then Nil else Leaf(Float(o.value))
  }

  function StructValue<T>(o: Option<T>, fields: T -> seq<Value>): Value {
    if o.None? then Nil else Node(fields(o.value))
  }

  function ListValue<T>(l: Slice<T>, element: T -> Value): Value {
    if l.NilSlice? then Nil else Node(seq(|l.elems|, i requires 0 <= i < |l.elems| => element(l.elems[i])))
  }

  // The fields of every struct, in the order of the source.

  function ZonesFields(v: Api.AvailabilityZoneDistribution): seq<Value> {
    [TextValue(v.capacityDistributionStrategy)]
  }

  function ImpairmentFields(v: Api.AvailabilityZoneImpairmentPolicy): seq<Value> {
    [TextValue(v.impairedZoneHealthCheckBehavior), FlagValue(v.zonalShiftEnabled)]
  }

  function ReservationTargetFields(v: Api.CapacityReservationTarget): seq<Value> {
    [ListValue(v.capacityReservationIDs, TextValue),
     ListValue(v.capacityReservationResourceGroupARNs, TextValue)]
  }

  function ReservationFields(v: Api.CapacityReservationSpecification): seq<Value> {
    [TextValue(v.capacityReservationPreference),
     StructValue(v.capacityReservationTarget, ReservationTargetFields)]
  }

  function TriggersFields(v: Api.RetentionTriggers): seq<Value> {
    [TextValue(v.terminateHookAbandon)]
  }

  function LifecycleFields(v: Api.InstanceLifecyclePolicy): seq<Value> {
    [StructValue(v.retentionTriggers, TriggersFields)]
  }

  function MaintenanceFields(v: Api.InstanceMaintenancePolicy): seq<Value> {
    [NumberValue(v.maxHealthyPercentage), NumberValue(v.minHealthyPercentage)]
  }

  function TemplateFields(v: Api.LaunchTemplateSpecification): seq<Value> {
    [TextValue(v.launchTemplateName), TextValue(v.version)]
  }

  function TargetFields(v: Api.NamespacedRef): seq<Value> {
    [TextValue(v.name), TextValue(v.namespace)]
  }

  function ReferenceFields(v: Api.Reference): seq<Value> {
    [StructValue(v.from, TargetFields)]
  }

  function ReferenceValue(o: Option<Api.Reference>): Value {
    StructValue(o, ReferenceFields)
  }

  function HookFields(v: Api.LifecycleHookSpecification): seq<Value> {
    [TextValue(v.defaultResult), NumberValue(v.heartbeatTimeout), TextValue(v.lifecycleHookName),
     TextValue(v.lifecycleTransition), TextValue(v.notificationMetadata), TextValue(v.notificationTargetARN),
     TextValue(v.roleARN), StructValue(v.roleRef, ReferenceFields)]
  }

  function HookValue(h: Api.LifecycleHookSpecification): Value {
    Node(HookFields(h))
  }

  function DistributionFields(v: Api.InstancesDistribution): seq<Value> {
    [TextValue(v.onDemandAllocationStrategy), NumberValue(v.onDemandBaseCapacity),
     NumberValue(v.onDemandPercentageAboveBaseCapacity), TextValue(v.spotAllocationStrategy),
     NumberValue(v.spotInstancePools), TextValue(v.spotMaxPrice)]
  }

  function RangeFields(v: Api.IntRange): seq<Value> {
    [NumberValue(v.max), NumberValue(v.min)]
  }

  function FloatFields(v: Api.FloatRange): seq<Value> {
    [FloatValue(v.max), FloatValue(v.min)]
  }

  function FactorReferenceFields(v: Api.PerformanceFactorReference): seq<Value> {
    [TextValue(v.instanceFamily)]
  }

  function FactorReferenceValue(o: Option<Api.PerformanceFactorReference>): Value {
    StructValue(o, FactorReferenceFields)
  }

  function ProcessorFields(v: Api.CPUPerformanceFactor): seq<Value> {
    [ListValue(v.references, FactorReferenceValue)]
  }

  function FactorsFields(v: Api.BaselinePerformanceFactors): seq<Value> {
    [StructValue(v.cpu, ProcessorFields)]
  }

  function RequirementsFields0(v: Api.InstanceRequirements): (fields: seq<Value>)
    ensures |fields| == 7
  {
    [StructValue(v.acceleratorCount, RangeFields), ListValue(v.acceleratorManufacturers, TextValue),
     ListValue(v.acceleratorNames, TextValue), StructValue(v.acceleratorTotalMemoryMiB, RangeFields),
     ListValue(v.acceleratorTypes, TextValue), ListValue(v.allowedInstanceTypes, TextValue),
     TextValue(v.bareMetal)]
  }

  function RequirementsFields1(v: Api.InstanceRequirements): (fields: seq<Value>)
    ensures |fields| == 7
  {
    [StructValue(v.baselineEBSBandwidthMbps, RangeFields),
     StructValue(v.baselinePerformanceFactors, FactorsFields), TextValue(v.burstablePerformance),
     ListValue(v.cpuManufacturers, TextValue), ListValue(v.excludedInstanceTypes, TextValue),
     ListValue(v.instanceGenerations, TextValue), TextValue(v.localStorage)]
  }

  function RequirementsFields2(v: Api.InstanceRequirements): (fields: seq<Value>)
    ensures |fields| == 7
  {
    [ListValue(v.localStorageTypes, TextValue), NumberValue(v.maxSpotPriceAsPercentageOfOptimalOnDemandPrice),
     StructValue(v.memoryGiBPerVCPU, FloatFields), StructValue(v.memoryMiB, RangeFields),
     StructValue(v.networkBandwidthGbps, FloatFields), StructValue(v.networkInterfaceCount, RangeFields),
     NumberValue(v.onDemandMaxPricePercentageOverLowestPrice)]
  }

  function RequirementsFields3(v: Api.InstanceRequirements): (fields: seq<Value>)
    ensures |fields| == 4
  {
    [FlagValue(v.requireHibernateSupport), NumberValue(v.spotMaxPricePercentageOverLowestPrice),
     StructValue(v.totalLocalStorageGB, FloatFields), StructValue(v.vcpuCount, RangeFields)]
  }

  function RequirementsFields(v: Api.InstanceRequirements): seq<Value> {
    RequirementsFields0(v) + RequirementsFields1(v) + RequirementsFields2(v) + RequirementsFields3(v)
  }

  function OverrideFields(v: Api.LaunchTemplateOverrides): seq<Value> {
    [TextValue(v.imageID), StructValue(v.instanceRequirements, RequirementsFields), TextValue(v.instanceType),
     StructValue(v.launchTemplateSpecification, TemplateFields), TextValue(v.weightedCapacity)]
  }

  function OverrideValue(o: Option<Api.LaunchTemplateOverrides>): Value {
    StructValue(o, OverrideFields)
  }

  function LaunchTemplateFields(v: Api.LaunchTemplate): seq<Value> {
    [StructValue(v.launchTemplateSpecification, TemplateFields), ListValue(v.overrides, OverrideValue)]
  }

  function MixedFields(v: Api.MixedInstancesPolicy): seq<Value> {
    [StructValue(v.instancesDistribution, DistributionFields),
     StructValue(v.launchTemplate, LaunchTemplateFields)]
  }

  function TagFields(v: Api.Tag): seq<Value> {
    [TextValue(v.key), TextValue(v.value)]
  }

  function TagValue(t: Api.Tag): Value {
    Node(TagFields(t))
  }

  function SourceFields(v: Api.TrafficSource): seq<Value> {
    [TextValue(v.identifier), TextValue(v.kind)]
  }

  function SourceValue(o: Option<Api.TrafficSource>): Value {
    StructValue(o, SourceFields)
  }

  function SpecFields0(v: Api.Spec): (fields: seq<Value>)
    ensures |fields| == 7
  {
    [StructValue(v.availabilityZoneDistribution, ZonesFields),
     StructValue(v.availabilityZoneImpairmentPolicy, ImpairmentFields),
     ListValue(v.availabilityZones, TextValue), FlagValue(v.capacityRebalance),
     StructValue(v.capacityReservationSpecification, ReservationFields), NumberValue(v.defaultCooldown),
     NumberValue(v.defaultInstanceWarmup)]
  }

  function SpecFields1(v: Api.Spec): (fields: seq<Value>)
    ensures |fields| == 7
  {
    [NumberValue(v.desiredCapacity), TextValue(v.desiredCapacityType), NumberValue(v.healthCheckGracePeriod),
     TextValue(v.healthCheckType), TextValue(v.instanceID),
     StructValue(v.instanceLifecyclePolicy, LifecycleFields),
     StructValue(v.instanceMaintenancePolicy, MaintenanceFields)]
  }

  function SpecFields2(v: Api.Spec): (fields: seq<Value>)
    ensures |fields| == 7
  {
    [StructValue(v.instanceRef, ReferenceFields), TextValue(v.launchConfigurationName),
     StructValue(v.launchTemplate, TemplateFields), ListValue(v.lifecycleHooks, HookValue),
     ListValue(v.loadBalancerNames, TextValue), NumberValue(v.maxInstanceLifetime), NumberValue(v.maxSize)]
  }

  function SpecFields3(v: Api.Spec): (fields: seq<Value>)
    ensures |fields| == 7
  {
    [NumberValue(v.minSize), StructValue(v.mixedInstancesPolicy, MixedFields), TextValue(v.name),
     FlagValue(v.newInstancesProtectedFromScaleIn), TextValue(v.placementGroup),
     TextValue(v.serviceLinkedRoleARN), StructValue(v.serviceLinkedRoleRef, ReferenceFields)]
  }

  function SpecFields4(v: Api.Spec): (fields: seq<Value>)
    ensures |fields| == 7
  {
    [FlagValue(v.skipZonalShiftValidation), ListValue(v.tags, TagValue), ListValue(v.targetGroupARNs, TextValue),
     ListValue(v.targetGroupRefs, ReferenceValue), ListValue(v.terminationPolicies, TextValue),
     ListValue(v.trafficSources, SourceValue), TextValue(v.vpcZoneIdentifier)]
  }

  function SpecFields(v: Api.Spec): seq<Value> {
    SpecFields0(v) + SpecFields1(v) + SpecFields2(v) + SpecFields3(v) + SpecFields4(v)
  }

  function SpecValue(v: Option<Api.Spec>): Value {
    StructValue(v, SpecFields)
  }

  // ---- no two specs have one value ----------------------------------------------------------

  /** Different arguments have different results. */
  ghost predicate Tells<T(!new), U(!new)>(f: T -> U) {
    forall x, y | f(x) == f(y) :: x == y
  }

  lemma StructTells<T(!new)>(fields: T -> seq<Value>)
    requires Tells(fields)
    ensures forall o: Option<T>, u: Option<T> | StructValue(o, fields) == StructValue(u, fields) :: o == u
  {
  }

  lemma ListTells<T(!new)>(element: T -> Value)
    requires Tells(element)
    ensures forall l: Slice<T>, m: Slice<T> | ListValue(l, element) == ListValue(m, element) :: l == m
  {
    forall l: Slice<T>, m: Slice<T> | ListValue(l, element) == ListValue(m, element)
      ensures l == m
    {
      if l.Elems? {
        var k, n := ListValue(l, element).kids, ListValue(m, element).kids;
        forall i | 0 <= i < |l.elems|
          ensures l.elems[i] == m.elems[i]
        {
          assert k[i] == n[i];
        }
      }
    }
  }

  lemma TextsTell()
    ensures forall l: Api.StringList, m: Api.StringList | ListValue(l, TextValue) == ListValue(m, TextValue) :: l == m
  {
    ListTells(TextValue);
  }

  lemma ReservationTargetTells()
    ensures Tells(ReservationTargetFields)
  {
    TextsTell();
  }

  lemma ReservationTells()
    ensures Tells(ReservationFields)
  {
    ReservationTargetTells();
    StructTells(ReservationTargetFields);
  }

  lemma LifecycleTells()
    ensures Tells(LifecycleFields)
  {
    StructTells(TriggersFields);
  }

  lemma ReferenceTells()
    ensures Tells(ReferenceFields)
  {
    StructTells(TargetFields);
  }

  lemma HookTells()
    ensures Tells(HookFields)
  {
    ReferenceTells();
    StructTells(ReferenceFields);
  }

  lemma ProcessorTells()
    ensures Tells(ProcessorFields)
  {
    StructTells(FactorReferenceFields);
    ListTells(FactorReferenceValue);
  }

  lemma FactorsTells()
    ensures Tells(FactorsFields)
  {
    ProcessorTells();
    StructTells(ProcessorFields);
  }

  lemma RequirementsTells0(x: Api.InstanceRequirements, y: Api.InstanceRequirements)
    requires RequirementsFields0(x) == RequirementsFields0(y)
    ensures x.acceleratorCount == y.acceleratorCount && x.acceleratorManufacturers == y.acceleratorManufacturers &&
            x.acceleratorNames == y.acceleratorNames && x.acceleratorTotalMemoryMiB == y.acceleratorTotalMemoryMiB &&
            x.acceleratorTypes == y.acceleratorTypes && x.allowedInstanceTypes == y.allowedInstanceTypes &&
            x.bareMetal == y.bareMetal
  {
    StructTells(RangeFields);
    TextsTell();
  }

  lemma RequirementsTells1(x: Api.InstanceRequirements, y: Api.InstanceRequirements)
    requires RequirementsFields1(x) == RequirementsFields1(y)
    ensures x.baselineEBSBandwidthMbps == y.baselineEBSBandwidthMbps &&
            x.baselinePerformanceFactors == y.baselinePerformanceFactors &&
            x.burstablePerformance == y.burstablePerformance && x.cpuManufacturers == y.cpuManufacturers &&
            x.excludedInstanceTypes == y.excludedInstanceTypes && x.instanceGenerations == y.instanceGenerations &&
            x.localStorage == y.localStorage
  {
    StructTells(RangeFields);
    FactorsTells();
    StructTells(FactorsFields);
    TextsTell();
  }

  lemma RequirementsTells2(x: Api.InstanceRequirements, y: Api.InstanceRequirements)
    requires RequirementsFields2(x) == RequirementsFields2(y)
    ensures x.localStorageTypes == y.localStorageTypes &&
            x.maxSpotPriceAsPercentageOfOptimalOnDemandPrice == y.maxSpotPriceAsPercentageOfOptimalOnDemandPrice &&
            x.memoryGiBPerVCPU == y.memoryGiBPerVCPU && x.memoryMiB == y.memoryMiB &&
            x.networkBandwidthGbps == y.networkBandwidthGbps && x.networkInterfaceCount == y.networkInterfaceCount &&
            x.onDemandMaxPricePercentageOverLowestPrice == y.onDemandMaxPricePercentageOverLowestPrice
  {
    TextsTell();
    StructTells(FloatFields);
    StructTells(RangeFields);
  }

  lemma RequirementsTells3(x: Api.InstanceRequirements, y: Api.InstanceRequirements)
    requires RequirementsFields3(x) == RequirementsFields3(y)
    ensures x.requireHibernateSupport == y.requireHibernateSupport &&
            x.spotMaxPricePercentageOverLowestPrice == y.spotMaxPricePercentageOverLowestPrice &&
            x.totalLocalStorageGB == y.totalLocalStorageGB && x.vcpuCount == y.vcpuCount
  {
    StructTells(FloatFields);
    StructTells(RangeFields);
  }

  lemma RequirementsTells()
    ensures Tells(RequirementsFields)
  {
    hide RequirementsFields0, RequirementsFields1, RequirementsFields2, RequirementsFields3;
    forall x, y | RequirementsFields(x) == RequirementsFields(y)
      ensures x == y
    {
      var f, g := RequirementsFields(x), RequirementsFields(y);
      assert f[0..7] == RequirementsFields0(x) && g[0..7] == RequirementsFields0(y);
      assert f[7..14] == RequirementsFields1(x) && g[7..14] == RequirementsFields1(y);
      assert f[14..21] == RequirementsFields2(x) && g[14..21] == RequirementsFields2(y);
      assert f[21..25] == RequirementsFields3(x) && g[21..25] == RequirementsFields3(y);
      RequirementsTells0(x, y);
      RequirementsTells1(x, y);
      RequirementsTells2(x, y);
      RequirementsTells3(x, y);
    }
  }

  lemma OverrideTells()
    ensures Tells(OverrideFields)
  {
    RequirementsTells();
    StructTells(RequirementsFields);
    StructTells(TemplateFields);
  }

  lemma LaunchTemplateTells()
    ensures Tells(LaunchTemplateFields)
  {
    StructTells(TemplateFields);
    OverrideTells();
    StructTells(OverrideFields);
    ListTells(OverrideValue);
  }

  lemma MixedTells()
    ensures Tells(MixedFields)
  {
    StructTells(DistributionFields);
    LaunchTemplateTells();
    StructTells(LaunchTemplateFields);
  }

  lemma SpecTells0(x: Api.Spec, y: Api.Spec)
    requires SpecFields0(x) == SpecFields0(y)
    ensures x.availabilityZoneDistribution == y.availabilityZoneDistribution &&
            x.availabilityZoneImpairmentPolicy == y.availabilityZoneImpairmentPolicy &&
            x.availabilityZones == y.availabilityZones && x.capacityRebalance == y.capacityRebalance &&
            x.capacityReservationSpecification == y.capacityReservationSpecification &&
            x.defaultCooldown == y.defaultCooldown && x.defaultInstanceWarmup == y.defaultInstanceWarmup
  {
    StructTells(ZonesFields);
    StructTells(ImpairmentFields);
    TextsTell();
    ReservationTells();
    StructTells(ReservationFields);
  }

  lemma SpecTells1(x: Api.Spec, y: Api.Spec)
    requires SpecFields1(x) == SpecFields1(y)
    ensures x.desiredCapacity == y.desiredCapacity && x.desiredCapacityType == y.desiredCapacityType &&
            x.healthCheckGracePeriod == y.healthCheckGracePeriod && x.healthCheckType == y.healthCheckType &&
            x.instanceID == y.instanceID && x.instanceLifecyclePolicy == y.instanceLifecyclePolicy &&
            x.instanceMaintenancePolicy == y.instanceMaintenancePolicy
  {
    LifecycleTells();
    StructTells(LifecycleFields);
    StructTells(MaintenanceFields);
  }

  lemma SpecTells2(x: Api.Spec, y: Api.Spec)
    requires SpecFields2(x) == SpecFields2(y)
    ensures x.instanceRef == y.instanceRef && x.launchConfigurationName == y.launchConfigurationName &&
            x.launchTemplate == y.launchTemplate && x.lifecycleHooks == y.lifecycleHooks &&
            x.loadBalancerNames == y.loadBalancerNames && x.maxInstanceLifetime == y.maxInstanceLifetime &&
            x.maxSize == y.maxSize
  {
    ReferenceTells();
    StructTells(ReferenceFields);
    StructTells(TemplateFields);
    HookTells();
    ListTells(HookValue);
    TextsTell();
  }

  lemma SpecTells3(x: Api.Spec, y: Api.Spec)
    requires SpecFields3(x) == SpecFields3(y)
    ensures x.minSize == y.minSize && x.mixedInstancesPolicy == y.mixedInstancesPolicy && x.name == y.name &&
            x.newInstancesProtectedFromScaleIn == y.newInstancesProtectedFromScaleIn &&
            x.placementGroup == y.placementGroup && x.serviceLinkedRoleARN == y.serviceLinkedRoleARN &&
            x.serviceLinkedRoleRef == y.serviceLinkedRoleRef
  {
    MixedTells();
    StructTells(MixedFields);
    ReferenceTells();
    StructTells(ReferenceFields);
  }

  lemma SpecTells4(x: Api.Spec, y: Api.Spec)
    requires SpecFields4(x) == SpecFields4(y)
    ensures x.skipZonalShiftValidation == y.skipZonalShiftValidation && x.tags == y.tags &&
            x.targetGroupARNs == y.targetGroupARNs && x.targetGroupRefs == y.targetGroupRefs &&
            x.terminationPolicies == y.terminationPolicies && x.trafficSources == y.trafficSources &&
            x.vpcZoneIdentifier == y.vpcZoneIdentifier
  {
    ListTells(TagValue);
    TextsTell();
    ReferenceTells();
    StructTells(ReferenceFields);
    ListTells(ReferenceValue);
    StructTells(SourceFields);
    ListTells(SourceValue);
  }

  lemma SpecTells()
    ensures Tells(SpecFields)
  {
    hide SpecFields0, SpecFields1, SpecFields2, SpecFields3, SpecFields4;
    forall x, y | SpecFields(x) == SpecFields(y)
      ensures x == y
    {
      var f, g := SpecFields(x), SpecFields(y);
      assert f[0..7] == SpecFields0(x) && g[0..7] == SpecFields0(y);
      assert f[7..14] == SpecFields1(x) && g[7..14] == SpecFields1(y);
      assert f[14..21] == SpecFields2(x) && g[14..21] == SpecFields2(y);
      assert f[21..28] == SpecFields3(x) && g[21..28] == SpecFields3(y);
      assert f[28..35] == SpecFields4(x) && g[28..35] == SpecFields4(y);
      SpecTells0(x, y);
      SpecTells1(x, y);
      SpecTells2(x, y);
      SpecTells3(x, y);
      SpecTells4(x, y);
    }
  }
}
