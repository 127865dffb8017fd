/** The custom resource's spec (apis/v1alpha1), as a value.

    Pointer fields are options. List slots are options where the program copes with a nil slot
    somewhere; tags and lifecycle hooks hold no nil slots, because every function that walks those
    two lists dereferences each slot. */
module Api {
  import opened Basics

  type StringList = Slice<Option<string>>

  datatype AvailabilityZoneDistribution = AvailabilityZoneDistribution(
    capacityDistributionStrategy: Option<string>)

  datatype AvailabilityZoneImpairmentPolicy = AvailabilityZoneImpairmentPolicy(
    impairedZoneHealthCheckBehavior: Option<string>,
    zonalShiftEnabled: Option<bool>)

  datatype CapacityReservationTarget = CapacityReservationTarget(
    capacityReservationIDs: StringList,
    capacityReservationResourceGroupARNs: StringList)

  datatype CapacityReservationSpecification = CapacityReservationSpecification(
    capacityReservationPreference: Option<string>,
    capacityReservationTarget: Option<CapacityReservationTarget>)

  datatype RetentionTriggers = RetentionTriggers(terminateHookAbandon: Option<string>)

  datatype InstanceLifecyclePolicy = InstanceLifecyclePolicy(retentionTriggers: Option<RetentionTriggers>)

  datatype InstanceMaintenancePolicy = InstanceMaintenancePolicy(
    maxHealthyPercentage: Option<int64>,
    minHealthyPercentage: Option<int64>)

  datatype LaunchTemplateSpecification = LaunchTemplateSpecification(
    launchTemplateName: Option<string>,
    version: Option<string>)

  /** A reference to another Kubernetes object; `From` may be nil, and so may both of its fields. */
  datatype NamespacedRef = NamespacedRef(name: Option<string>, namespace: Option<string>)
  datatype Reference = Reference(from: Option<NamespacedRef>)

  datatype LifecycleHookSpecification = LifecycleHookSpecification(
    defaultResult: Option<string>,
    heartbeatTimeout: Option<int64>,
    lifecycleHookName: Option<string>,
    lifecycleTransition: Option<string>,
    notificationMetadata: Option<string>,
    notificationTargetARN: Option<string>,
    roleARN: Option<string>,
    roleRef: Option<Reference>)

  datatype InstancesDistribution = InstancesDistribution(
    onDemandAllocationStrategy: Option<string>,
    onDemandBaseCapacity: Option<int64>,
    onDemandPercentageAboveBaseCapacity: Option<int64>,
    spotAllocationStrategy: Option<string>,
    spotInstancePools: Option<int64>,
    spotMaxPrice: Option<string>)

  /** The six integer Max/Min requests have one shape, and so have the three float ones. */
  datatype IntRange = IntRange(max: Option<int64>, min: Option<int64>)
  datatype FloatRange = FloatRange(max: Option<real>, min: Option<real>)

  datatype PerformanceFactorReference = PerformanceFactorReference(instanceFamily: Option<string>)
  datatype CPUPerformanceFactor = CPUPerformanceFactor(references: Slice<Option<PerformanceFactorReference>>)
  datatype BaselinePerformanceFactors = BaselinePerformanceFactors(cpu: Option<CPUPerformanceFactor>)

  datatype InstanceRequirements = InstanceRequirements(
    acceleratorCount: Option<IntRange>,
    acceleratorManufacturers: StringList,
    acceleratorNames: StringList,
    acceleratorTotalMemoryMiB: Option<IntRange>,
    acceleratorTypes: StringList,
    allowedInstanceTypes: StringList,
    bareMetal: Option<string>,
    baselineEBSBandwidthMbps: Option<IntRange>,
    baselinePerformanceFactors: Option<BaselinePerformanceFactors>,
    burstablePerformance: Option<string>,
    cpuManufacturers: StringList,
    excludedInstanceTypes: StringList,
    instanceGenerations: StringList,
    localStorage: Option<string>,
    localStorageTypes: StringList,
    maxSpotPriceAsPercentageOfOptimalOnDemandPrice: Option<int64>,
    memoryGiBPerVCPU: Option<FloatRange>,
    memoryMiB: Option<IntRange>,
    networkBandwidthGbps: Option<FloatRange>,
    networkInterfaceCount: Option<IntRange>,
    onDemandMaxPricePercentageOverLowestPrice: Option<int64>,
    requireHibernateSupport: Option<bool>,
    spotMaxPricePercentageOverLowestPrice: Option<int64>,
    totalLocalStorageGB: Option<FloatRange>,
    vcpuCount: Option<IntRange>)

  datatype LaunchTemplateOverrides = LaunchTemplateOverrides(
    imageID: Option<string>,
    instanceRequirements: Option<InstanceRequirements>,
    instanceType: Option<string>,
    launchTemplateSpecification: Option<LaunchTemplateSpecification>,
    weightedCapacity: Option<string>)

  datatype LaunchTemplate = LaunchTemplate(
    launchTemplateSpecification: Option<LaunchTemplateSpecification>,
    overrides: Slice<Option<LaunchTemplateOverrides>>)

  datatype MixedInstancesPolicy = MixedInstancesPolicy(
    instancesDistribution: Option<InstancesDistribution>,
    launchTemplate: Option<LaunchTemplate>)

  datatype Tag = Tag(key: Option<string>, value: Option<string>)

  datatype TrafficSource = TrafficSource(identifier: Option<string>, kind: Option<string>)

  datatype Spec = Spec(
    availabilityZoneDistribution: Option<AvailabilityZoneDistribution>,
    availabilityZoneImpairmentPolicy: Option<AvailabilityZoneImpairmentPolicy>,
    availabilityZones: StringList,
    capacityRebalance: Option<bool>,
    capacityReservationSpecification: Option<CapacityReservationSpecification>,
    defaultCooldown: Option<int64>,
    defaultInstanceWarmup: Option<int64>,
    desiredCapacity: Option<int64>,
    desiredCapacityType: Option<string>,
    healthCheckGracePeriod: Option<int64>,
    healthCheckType: Option<string>,
    instanceID: Option<string>,
    instanceLifecyclePolicy: Option<InstanceLifecyclePolicy>,
    instanceMaintenancePolicy: Option<InstanceMaintenancePolicy>,
    instanceRef: Option<Reference>,
    launchConfigurationName: Option<string>,
    launchTemplate: Option<LaunchTemplateSpecification>,
    lifecycleHooks: Slice<LifecycleHookSpecification>,
    loadBalancerNames: StringList,
    maxInstanceLifetime: Option<int64>,
    maxSize: Option<int64>,
    minSize: Option<int64>,
    mixedInstancesPolicy: Option<MixedInstancesPolicy>,
    name: Option<string>,
    newInstancesProtectedFromScaleIn: Option<bool>,
    placementGroup: Option<string>,
    serviceLinkedRoleARN: Option<string>,
    serviceLinkedRoleRef: Option<Reference>,
    skipZonalShiftValidation: Option<bool>,
    tags: Slice<Tag>,
    targetGroupARNs: StringList,
    targetGroupRefs: Slice<Option<Reference>>,
    terminationPolicies: StringList,
    trafficSources: Slice<Option<TrafficSource>>,
    vpcZoneIdentifier: Option<string>)
}
