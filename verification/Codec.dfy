/** What the request builders and the describe reader do to each shape, as functions, and which
    values survive the trip out and back. */
module Codec {
  import opened Basics
  import opened Api
  import Wire

  // ---- leaves -------------------------------------------------------------------------------

  /** An enumeration field: a nil pointer becomes "", and "" is read back as nil. */
  function EncodeEnum(s: Option<string>): string {
    if s.Some? then s.value else ""
  }

  function DecodeEnum(w: string): Option<string> {
    if w != "" then Some(w) else None
  }

  /** `aws.ToStringSlice`: a nil slot becomes "". */
  function FillStrings(l: StringList): Slice<string> {
    if l.NilSlice? then NilSlice
    else Elems(seq(|l.elems|, i requires 0 <= i < |l.elems| => EncodeEnum(l.elems[i])))
  }

  /** `aws.StringSlice`. */
  function PointStrings(l: Slice<string>): StringList {
    if l.NilSlice? then NilSlice
    else Elems(seq(|l.elems|, i requires 0 <= i < |l.elems| => Some(l.elems[i])))
  }

  function Narrowed(v: Option<int64>): Option<int32> {
    if v.Some? then Some(Truncate32(v.value)) else None
  }

  function Widened(v: Option<int32>): Option<int64> {
    if v.Some? then Some(v.value) else None
  }

  predicate Fits(v: Option<int64>) {
    v.Some? ==> MIN_INT32 <= v.value <= MAX_INT32
  }

  predicate NoNilSlots<T>(l: Slice<Option<T>>) {
    forall i | 0 <= i < |l.Items()| :: l.Items()[i].Some?
  }

  /** An enumeration survives unless it is a pointer to "". */
  predicate EnumSurvives(s: Option<string>) {
    s != Some("")
  }

  lemma EnumRoundTrip(s: Option<string>)
    ensures DecodeEnum(EncodeEnum(s)) == s <==> EnumSurvives(s)
  {
  }

  lemma NarrowRoundTrip(v: Option<int64>)
    ensures Widened(Narrowed(v)) == v <==> Fits(v)
  {
    if v.Some? {
      TruncateIsExact(v.value);
    }
  }

  lemma StringsRoundTrip(l: StringList)
    ensures PointStrings(FillStrings(l)).NilSlice? <==> l.NilSlice?
    ensures |PointStrings(FillStrings(l)).Items()| == |l.Items()|
    ensures PointStrings(FillStrings(l)) == l <==> NoNilSlots(l)
    ensures PointStrings(FillStrings(l)).Items() == l.Items() <==> NoNilSlots(l)
  {
    var back := PointStrings(FillStrings(l)).Items();
    assert forall i | 0 <= i < |back| :: back[i] == Some(EncodeEnum(l.Items()[i]));
    if back == l.Items() {
      assert forall i | 0 <= i < |back| :: l.Items()[i] == back[i];
    }
  }

  // ---- structs without numbers --------------------------------------------------------------

  function EncodeDistributionOfZones(o: Option<AvailabilityZoneDistribution>)
    : Option<Wire.AvailabilityZoneDistribution>
  {
    if o.None? then None
    else Some(Wire.AvailabilityZoneDistribution(EncodeEnum(o.value.capacityDistributionStrategy)))
  }

  function DecodeDistributionOfZones(o: Option<Wire.AvailabilityZoneDistribution>)
    : Option<AvailabilityZoneDistribution>
  {
    if o.None? then None
    else Some(AvailabilityZoneDistribution(DecodeEnum(o.value.capacityDistributionStrategy)))
  }

  function EncodeImpairment(o: Option<AvailabilityZoneImpairmentPolicy>)
    : Option<Wire.AvailabilityZoneImpairmentPolicy>
  {
    if o.None? then None
    else Some(Wire.AvailabilityZoneImpairmentPolicy(
                EncodeEnum(o.value.impairedZoneHealthCheckBehavior), o.value.zonalShiftEnabled))
  }

  function DecodeImpairment(o: Option<Wire.AvailabilityZoneImpairmentPolicy>)
    : Option<AvailabilityZoneImpairmentPolicy>
  {
    if o.None? then None
    else Some(AvailabilityZoneImpairmentPolicy(
                DecodeEnum(o.value.impairedZoneHealthCheckBehavior), o.value.zonalShiftEnabled))
  }

  function EncodeReservationTarget(o: Option<CapacityReservationTarget>): Option<Wire.CapacityReservationTarget> {
    if o.None? then None
    else Some(Wire.CapacityReservationTarget(
                FillStrings(o.value.capacityReservationIDs),
                FillStrings(o.value.capacityReservationResourceGroupARNs)))
  }

  function DecodeReservationTarget(o: Option<Wire.CapacityReservationTarget>): Option<CapacityReservationTarget> {
    if o.None? then None
    else Some(CapacityReservationTarget(
                PointStrings(o.value.capacityReservationIds),
                PointStrings(o.value.capacityReservationResourceGroupArns)))
  }

  function EncodeReservation(o: Option<CapacityReservationSpecification>)
    : Option<Wire.CapacityReservationSpecification>
  {
    if o.None? then None
    else Some(Wire.CapacityReservationSpecification(
                EncodeEnum(o.value.capacityReservationPreference),
                EncodeReservationTarget(o.value.capacityReservationTarget)))
  }

  function DecodeReservation(o: Option<Wire.CapacityReservationSpecification>)
    : Option<CapacityReservationSpecification>
  {
    if o.None? then None
    else Some(CapacityReservationSpecification(
                DecodeEnum(o.value.capacityReservationPreference),
                DecodeReservationTarget(o.value.capacityReservationTarget)))
  }

  function EncodeLifecyclePolicy(o: Option<InstanceLifecyclePolicy>): Option<Wire.InstanceLifecyclePolicy> {
    if o.None? then None
    else Some(Wire.InstanceLifecyclePolicy(
                if o.value.retentionTriggers.None? then None
                else Some(Wire.RetentionTriggers(EncodeEnum(o.value.retentionTriggers.value.terminateHookAbandon)))))
  }

  function DecodeLifecyclePolicy(o: Option<Wire.InstanceLifecyclePolicy>): Option<InstanceLifecyclePolicy> {
    if o.None? then None
    else Some(InstanceLifecyclePolicy(
                if o.value.retentionTriggers.None? then None
                else Some(RetentionTriggers(DecodeEnum(o.value.retentionTriggers.value.terminateHookAbandon)))))
  }

  // ---- structs with numbers -----------------------------------------------------------------

  function EncodeMaintenance(o: Option<InstanceMaintenancePolicy>): Option<Wire.InstanceMaintenancePolicy> {
    if o.None? then None
    else Some(Wire.InstanceMaintenancePolicy(Narrowed(o.value.maxHealthyPercentage),
                                             Narrowed(o.value.minHealthyPercentage)))
  }

  function DecodeMaintenance(o: Option<Wire.InstanceMaintenancePolicy>): Option<InstanceMaintenancePolicy> {
    if o.None? then None
    else Some(InstanceMaintenancePolicy(Widened(o.value.maxHealthyPercentage), Widened(o.value.minHealthyPercentage)))
  }

  predicate MaintenanceFits(o: Option<InstanceMaintenancePolicy>) {
    o.Some? ==> Fits(o.value.maxHealthyPercentage) && Fits(o.value.minHealthyPercentage)
  }

  function EncodeRange(o: Option<IntRange>): Option<Wire.IntRange> {
    if o.None? then None else Some(Wire.IntRange(Narrowed(o.value.max), Narrowed(o.value.min)))
  }

  function DecodeRange(o: Option<Wire.IntRange>): Option<IntRange> {
    if o.None? then None else Some(IntRange(Widened(o.value.max), Widened(o.value.min)))
  }

  predicate RangeFits(o: Option<IntRange>) {
    o.Some? ==> Fits(o.value.max) && Fits(o.value.min)
  }

  function EncodeDistribution(o: Option<InstancesDistribution>): Option<Wire.InstancesDistribution> {
    if o.None? then None
    else
      var d := o.value;
      Some(Wire.InstancesDistribution(
             d.onDemandAllocationStrategy, Narrowed(d.onDemandBaseCapacity),
             Narrowed(d.onDemandPercentageAboveBaseCapacity), d.spotAllocationStrategy,
             Narrowed(d.spotInstancePools), d.spotMaxPrice))
  }

  function DecodeDistribution(o: Option<Wire.InstancesDistribution>): Option<InstancesDistribution> {
    if o.None? then None
    else
      var d := o.value;
      Some(InstancesDistribution(
             d.onDemandAllocationStrategy, Widened(d.onDemandBaseCapacity),
             Widened(d.onDemandPercentageAboveBaseCapacity), d.spotAllocationStrategy,
             Widened(d.spotInstancePools), d.spotMaxPrice))
  }

  predicate DistributionFits(o: Option<InstancesDistribution>) {
    o.Some? ==>
      && Fits(o.value.onDemandBaseCapacity)
      && Fits(o.value.onDemandPercentageAboveBaseCapacity)
      && Fits(o.value.spotInstancePools)
  }

  // ---- the requirements, overrides and mixed-instances nest ---------------------------------

  function EncodeReference(o: Option<PerformanceFactorReference>): PerformanceFactorReference {
    if o.Some? then o.value else PerformanceFactorReference(None)
  }

  function EncodeReferences(l: Slice<Option<PerformanceFactorReference>>): Slice<PerformanceFactorReference> {
    if l.NilSlice? then NilSlice
    else Elems(seq(|l.elems|, i requires 0 <= i < |l.elems| => EncodeReference(l.elems[i])))
  }

  function DecodeReferences(l: Slice<PerformanceFactorReference>): Slice<Option<PerformanceFactorReference>> {
    if l.NilSlice? then NilSlice
    else Elems(seq(|l.elems|, i requires 0 <= i < |l.elems| => Some(l.elems[i])))
  }

  function EncodeFactors(o: Option<BaselinePerformanceFactors>): Option<Wire.BaselinePerformanceFactors> {
    if o.None? then None
    else Some(Wire.BaselinePerformanceFactors(
                if o.value.cpu.None? then None
                else Some(Wire.CpuPerformanceFactor(EncodeReferences(o.value.cpu.value.references)))))
  }

  function DecodeFactors(o: Option<Wire.BaselinePerformanceFactors>): Option<BaselinePerformanceFactors> {
    if o.None? then None
    else Some(BaselinePerformanceFactors(
                if o.value.cpu.None? then None
                else Some(CPUPerformanceFactor(DecodeReferences(o.value.cpu.value.references)))))
  }

  predicate FactorsFilled(o: Option<BaselinePerformanceFactors>) {
    o.Some? && o.value.cpu.Some? ==> NoNilSlots(o.value.cpu.value.references)
  }

  function EncodeRequirements(o: Option<InstanceRequirements>): Option<Wire.InstanceRequirements> {
    if o.None? then None
    else
      var r := o.value;
      Some(Wire.InstanceRequirements(
             EncodeRange(r.acceleratorCount),
             FillStrings(r.acceleratorManufacturers),
             FillStrings(r.acceleratorNames),
             EncodeRange(r.acceleratorTotalMemoryMiB),
             FillStrings(r.acceleratorTypes),
             FillStrings(r.allowedInstanceTypes),
             EncodeEnum(r.bareMetal),
             EncodeRange(r.baselineEBSBandwidthMbps),
             EncodeFactors(r.baselinePerformanceFactors),
             EncodeEnum(r.burstablePerformance),
             FillStrings(r.cpuManufacturers),
             FillStrings(r.excludedInstanceTypes),
             FillStrings(r.instanceGenerations),
             EncodeEnum(r.localStorage),
             FillStrings(r.localStorageTypes),
             Narrowed(r.maxSpotPriceAsPercentageOfOptimalOnDemandPrice),
             r.memoryGiBPerVCPU,
             EncodeRange(r.memoryMiB),
             r.networkBandwidthGbps,
             EncodeRange(r.networkInterfaceCount),
             Narrowed(r.onDemandMaxPricePercentageOverLowestPrice),
             r.requireHibernateSupport,
             Narrowed(r.spotMaxPricePercentageOverLowestPrice),
             r.totalLocalStorageGB,
             EncodeRange(r.vcpuCount)))
  }

  function DecodeRequirements(o: Option<Wire.InstanceRequirements>): Option<InstanceRequirements> {
    if o.None? then None
    else
      var r := o.value;
      Some(InstanceRequirements(
             DecodeRange(r.acceleratorCount),
             PointStrings(r.acceleratorManufacturers),
             PointStrings(r.acceleratorNames),
             DecodeRange(r.acceleratorTotalMemoryMiB),
             PointStrings(r.acceleratorTypes),
             PointStrings(r.allowedInstanceTypes),
             DecodeEnum(r.bareMetal),
             DecodeRange(r.baselineEbsBandwidthMbps),
             DecodeFactors(r.baselinePerformanceFactors),
             DecodeEnum(r.burstablePerformance),
             PointStrings(r.cpuManufacturers),
             PointStrings(r.excludedInstanceTypes),
             PointStrings(r.instanceGenerations),
             DecodeEnum(r.localStorage),
             PointStrings(r.localStorageTypes),
             Widened(r.maxSpotPriceAsPercentageOfOptimalOnDemandPrice),
             r.memoryGiBPerVCpu,
             DecodeRange(r.memoryMiB),
             r.networkBandwidthGbps,
             DecodeRange(r.networkInterfaceCount),
             Widened(r.onDemandMaxPricePercentageOverLowestPrice),
             r.requireHibernateSupport,
             Widened(r.spotMaxPricePercentageOverLowestPrice),
             r.totalLocalStorageGB,
             DecodeRange(r.vCpuCount)))
  }

  predicate RequirementsFit(o: Option<InstanceRequirements>) {
    o.Some? ==>
      var r := o.value;
      && RangeFits(r.acceleratorCount)
      && RangeFits(r.acceleratorTotalMemoryMiB)
      && RangeFits(r.baselineEBSBandwidthMbps)
      && Fits(r.maxSpotPriceAsPercentageOfOptimalOnDemandPrice)
      && RangeFits(r.memoryMiB)
      && RangeFits(r.networkInterfaceCount)
      && Fits(r.onDemandMaxPricePercentageOverLowestPrice)
      && Fits(r.spotMaxPricePercentageOverLowestPrice)
      && RangeFits(r.vcpuCount)
  }

  /** The slots that the builder dereferences. The two `aws.ToStringSlice` lists are not among them. */
  predicate RequirementsFilled(o: Option<InstanceRequirements>) {
    o.Some? ==>
      var r := o.value;
      && NoNilSlots(r.acceleratorManufacturers)
      && NoNilSlots(r.acceleratorNames)
      && NoNilSlots(r.acceleratorTypes)
      && FactorsFilled(r.baselinePerformanceFactors)
      && NoNilSlots(r.cpuManufacturers)
      && NoNilSlots(r.instanceGenerations)
      && NoNilSlots(r.localStorageTypes)
  }

  predicate RequirementsSurvive(o: Option<InstanceRequirements>) {
    o.Some? ==>
      && EnumSurvives(o.value.bareMetal)
      && EnumSurvives(o.value.burstablePerformance)
      && EnumSurvives(o.value.localStorage)
      && NoNilSlots(o.value.allowedInstanceTypes)
      && NoNilSlots(o.value.excludedInstanceTypes)
  }

  function EncodeOverride(o: Option<LaunchTemplateOverrides>): Wire.LaunchTemplateOverrides {
    if o.None? then Wire.LaunchTemplateOverrides(None, None, None, None, None)
    else Wire.LaunchTemplateOverrides(
           o.value.imageID, EncodeRequirements(o.value.instanceRequirements), o.value.instanceType,
           o.value.launchTemplateSpecification, o.value.weightedCapacity)
  }

  function DecodeOverride(w: Wire.LaunchTemplateOverrides): Option<LaunchTemplateOverrides> {
    Some(LaunchTemplateOverrides(
           w.imageId, DecodeRequirements(w.instanceRequirements), w.instanceType,
           w.launchTemplateSpecification, w.weightedCapacity))
  }

  function EncodeOverrides(l: Slice<Option<LaunchTemplateOverrides>>): Slice<Wire.LaunchTemplateOverrides> {
    if l.NilSlice? then NilSlice
    else Elems(seq(|l.elems|, i requires 0 <= i < |l.elems| => EncodeOverride(l.elems[i])))
  }

  function DecodeOverrides(l: Slice<Wire.LaunchTemplateOverrides>): Slice<Option<LaunchTemplateOverrides>> {
    if l.NilSlice? then NilSlice
    else Elems(seq(|l.elems|, i requires 0 <= i < |l.elems| => DecodeOverride(l.elems[i])))
  }

  predicate OverrideFits(o: Option<LaunchTemplateOverrides>) {
    o.Some? ==> RequirementsFit(o.value.instanceRequirements)
  }

  predicate OverrideFilled(o: Option<LaunchTemplateOverrides>) {
    o.Some? && RequirementsFilled(o.value.instanceRequirements)
  }

  predicate OverrideSurvives(o: Option<LaunchTemplateOverrides>) {
    o.Some? && RequirementsSurvive(o.value.instanceRequirements)
  }

  predicate OverridesFit(l: seq<Option<LaunchTemplateOverrides>>) {
    forall i | 0 <= i < |l| :: OverrideFits(l[i])
  }

  predicate OverridesFilled(l: Slice<Option<LaunchTemplateOverrides>>) {
    forall i | 0 <= i < |l.Items()| :: OverrideFilled(l.Items()[i])
  }

  predicate OverridesSurvive(l: Slice<Option<LaunchTemplateOverrides>>) {
    forall i | 0 <= i < |l.Items()| :: OverrideSurvives(l.Items()[i])
  }

  function EncodeMixed(o: Option<MixedInstancesPolicy>): Option<Wire.MixedInstancesPolicy> {
    if o.None? then None
    else Some(Wire.MixedInstancesPolicy(
                EncodeDistribution(o.value.instancesDistribution),
                if o.value.launchTemplate.None? then None
                else Some(Wire.LaunchTemplate(
                            o.value.launchTemplate.value.launchTemplateSpecification,
                            EncodeOverrides(o.value.launchTemplate.value.overrides)))))
  }

  function DecodeMixed(o: Option<Wire.MixedInstancesPolicy>): Option<MixedInstancesPolicy> {
    if o.None? then None
    else Some(MixedInstancesPolicy(
                DecodeDistribution(o.value.instancesDistribution),
                if o.value.launchTemplate.None? then None
                else Some(LaunchTemplate(
                            o.value.launchTemplate.value.launchTemplateSpecification,
                            DecodeOverrides(o.value.launchTemplate.value.overrides)))))
  }

  predicate MixedFits(o: Option<MixedInstancesPolicy>) {
    o.Some? ==>
      && DistributionFits(o.value.instancesDistribution)
      && (o.value.launchTemplate.Some? ==> OverridesFit(o.value.launchTemplate.value.overrides.Items()))
  }

  predicate MixedFilled(o: Option<MixedInstancesPolicy>) {
    o.Some? && o.value.launchTemplate.Some? ==> OverridesFilled(o.value.launchTemplate.value.overrides)
  }

  predicate MixedSurvives(o: Option<MixedInstancesPolicy>) {
    o.Some? && o.value.launchTemplate.Some? ==> OverridesSurvive(o.value.launchTemplate.value.overrides)
  }

  // ---- semantic equality --------------------------------------------------------------------

  /** `equality.Semantic` takes a nil and an empty slice as equal; these are the normal forms. */
  function Normal<T>(l: Slice<T>): Slice<T> {
    Elems(l.Items())
  }

  function NormalFactors(o: Option<BaselinePerformanceFactors>): Option<BaselinePerformanceFactors> {
    if o.None? || o.value.cpu.None? then o
    else Some(BaselinePerformanceFactors(Some(CPUPerformanceFactor(Normal(o.value.cpu.value.references)))))
  }

  function NormalRequirements(o: Option<InstanceRequirements>): Option<InstanceRequirements> {
    if o.None? then o
    else
      var r := o.value;
      Some(r.(acceleratorManufacturers := Normal(r.acceleratorManufacturers),
              acceleratorNames := Normal(r.acceleratorNames),
              acceleratorTypes := Normal(r.acceleratorTypes),
              allowedInstanceTypes := Normal(r.allowedInstanceTypes),
              baselinePerformanceFactors := NormalFactors(r.baselinePerformanceFactors),
              cpuManufacturers := Normal(r.cpuManufacturers),
              excludedInstanceTypes := Normal(r.excludedInstanceTypes),
              instanceGenerations := Normal(r.instanceGenerations),
              localStorageTypes := Normal(r.localStorageTypes)))
  }

  function NormalOverride(o: Option<LaunchTemplateOverrides>): Option<LaunchTemplateOverrides> {
    if o.None? then o
    else Some(o.value.(instanceRequirements := NormalRequirements(o.value.instanceRequirements)))
  }

  function NormalOverrides(l: Slice<Option<LaunchTemplateOverrides>>): Slice<Option<LaunchTemplateOverrides>> {
    Elems(seq(|l.Items()|, i requires 0 <= i < |l.Items()| => NormalOverride(l.Items()[i])))
  }

  // ---- round trips of the nest --------------------------------------------------------------

  lemma ReferencesRoundTrip(l: Slice<Option<PerformanceFactorReference>>)
    requires NoNilSlots(l)
    ensures DecodeReferences(EncodeReferences(l)) == l
  {
    assert DecodeReferences(EncodeReferences(l)).Items() == l.Items();
  }

  lemma RangeRoundTrip(o: Option<IntRange>)
    requires RangeFits(o)
    ensures DecodeRange(EncodeRange(o)) == o
  {
    if o.Some? {
      NarrowRoundTrip(o.value.max);
      NarrowRoundTrip(o.value.min);
    }
  }

  lemma DistributionRoundTrip(o: Option<InstancesDistribution>)
    requires DistributionFits(o)
    ensures DecodeDistribution(EncodeDistribution(o)) == o
  {
    if o.Some? {
      NarrowRoundTrip(o.value.onDemandBaseCapacity);
      NarrowRoundTrip(o.value.onDemandPercentageAboveBaseCapacity);
      NarrowRoundTrip(o.value.spotInstancePools);
    }
  }

  /** Everything in a requirements block survives except enumerations set to "" and nil slots of the
      two lists that `aws.ToStringSlice` fills in. */
  lemma RequirementsRoundTrip(o: Option<InstanceRequirements>)
    requires RequirementsFit(o) && RequirementsFilled(o)
    ensures RequirementsSurvive(o) ==> DecodeRequirements(EncodeRequirements(o)) == o
    ensures NormalRequirements(DecodeRequirements(EncodeRequirements(o))) == NormalRequirements(o) <==>
              RequirementsSurvive(o)
  {
    if o.Some? {
      var r := o.value;
      RequirementsNumbersRoundTrip(r);
      RequirementsListsRoundTrip(r);
      EnumRoundTrip(r.bareMetal);
      EnumRoundTrip(r.burstablePerformance);
      EnumRoundTrip(r.localStorage);
    }
  }

  lemma RequirementsNumbersRoundTrip(r: InstanceRequirements)
    requires RequirementsFit(Some(r))
    ensures DecodeRange(EncodeRange(r.acceleratorCount)) == r.acceleratorCount
    ensures DecodeRange(EncodeRange(r.acceleratorTotalMemoryMiB)) == r.acceleratorTotalMemoryMiB
    ensures DecodeRange(EncodeRange(r.baselineEBSBandwidthMbps)) == r.baselineEBSBandwidthMbps
    ensures Widened(Narrowed(r.maxSpotPriceAsPercentageOfOptimalOnDemandPrice))
            == r.maxSpotPriceAsPercentageOfOptimalOnDemandPrice
    ensures DecodeRange(EncodeRange(r.memoryMiB)) == r.memoryMiB
    ensures DecodeRange(EncodeRange(r.networkInterfaceCount)) == r.networkInterfaceCount
    ensures Widened(Narrowed(r.onDemandMaxPricePercentageOverLowestPrice))
            == r.onDemandMaxPricePercentageOverLowestPrice
    ensures Widened(Narrowed(r.spotMaxPricePercentageOverLowestPrice)) == r.spotMaxPricePercentageOverLowestPrice
    ensures DecodeRange(EncodeRange(r.vcpuCount)) == r.vcpuCount
  {
    RangeRoundTrip(r.acceleratorCount);
    RangeRoundTrip(r.acceleratorTotalMemoryMiB);
    RangeRoundTrip(r.baselineEBSBandwidthMbps);
    NarrowRoundTrip(r.maxSpotPriceAsPercentageOfOptimalOnDemandPrice);
    RangeRoundTrip(r.memoryMiB);
    RangeRoundTrip(r.networkInterfaceCount);
    NarrowRoundTrip(r.onDemandMaxPricePercentageOverLowestPrice);
    NarrowRoundTrip(r.spotMaxPricePercentageOverLowestPrice);
    RangeRoundTrip(r.vcpuCount);
  }

  lemma RequirementsListsRoundTrip(r: InstanceRequirements)
    requires RequirementsFilled(Some(r))
    ensures PointStrings(FillStrings(r.acceleratorManufacturers)) == r.acceleratorManufacturers
    ensures PointStrings(FillStrings(r.acceleratorNames)) == r.acceleratorNames
    ensures PointStrings(FillStrings(r.acceleratorTypes)) == r.acceleratorTypes
    ensures PointStrings(FillStrings(r.cpuManufacturers)) == r.cpuManufacturers
    ensures PointStrings(FillStrings(r.instanceGenerations)) == r.instanceGenerations
    ensures PointStrings(FillStrings(r.localStorageTypes)) == r.localStorageTypes
    ensures DecodeFactors(EncodeFactors(r.baselinePerformanceFactors)) == r.baselinePerformanceFactors
    ensures PointStrings(FillStrings(r.allowedInstanceTypes)) == r.allowedInstanceTypes <==>
              NoNilSlots(r.allowedInstanceTypes)
    ensures Normal(PointStrings(FillStrings(r.allowedInstanceTypes))) == Normal(r.allowedInstanceTypes) <==>
              NoNilSlots(r.allowedInstanceTypes)
    ensures PointStrings(FillStrings(r.excludedInstanceTypes)) == r.excludedInstanceTypes <==>
              NoNilSlots(r.excludedInstanceTypes)
    ensures Normal(PointStrings(FillStrings(r.excludedInstanceTypes))) == Normal(r.excludedInstanceTypes) <==>
              NoNilSlots(r.excludedInstanceTypes)
  {
    StringsRoundTrip(r.acceleratorManufacturers);
    StringsRoundTrip(r.acceleratorNames);
    StringsRoundTrip(r.acceleratorTypes);
    StringsRoundTrip(r.cpuManufacturers);
    StringsRoundTrip(r.instanceGenerations);
    StringsRoundTrip(r.localStorageTypes);
    StringsRoundTrip(r.allowedInstanceTypes);
    StringsRoundTrip(r.excludedInstanceTypes);
    var f := r.baselinePerformanceFactors;
    if f.Some? && f.value.cpu.Some? {
      ReferencesRoundTrip(f.value.cpu.value.references);
    }
  }

  lemma OverrideRoundTrip(o: Option<LaunchTemplateOverrides>)
    requires OverrideFits(o) && OverrideFilled(o)
    ensures NormalOverride(DecodeOverride(EncodeOverride(o))) == NormalOverride(o) <==> OverrideSurvives(o)
  {
    RequirementsRoundTrip(o.value.instanceRequirements);
  }

  lemma OverridesRoundTrip(l: Slice<Option<LaunchTemplateOverrides>>)
    requires OverridesFit(l.Items()) && OverridesFilled(l)
    ensures |DecodeOverrides(EncodeOverrides(l)).Items()| == |l.Items()|
    ensures NormalOverrides(DecodeOverrides(EncodeOverrides(l))) == NormalOverrides(l) <==> OverridesSurvive(l)
  {
    var back := DecodeOverrides(EncodeOverrides(l));
    forall i | 0 <= i < |l.Items()|
      ensures NormalOverrides(back).elems[i] == NormalOverrides(l).elems[i] <==> OverrideSurvives(l.Items()[i])
    {
      OverrideRoundTrip(l.Items()[i]);
      assert back.Items()[i] == DecodeOverride(EncodeOverride(l.Items()[i]));
    }
    if OverridesSurvive(l) {
      assert NormalOverrides(back).elems == NormalOverrides(l).elems;
    }
  }
}
