/** What travels to and from the Auto Scaling API: enumerations are bare strings ("" when absent),
    integers have 32 bits, and list elements are values. A shape that is the same on both sides is
    taken from Api. */
module Wire {
  import opened Basics
  import Api

  datatype AvailabilityZoneDistribution = AvailabilityZoneDistribution(capacityDistributionStrategy: string)

  datatype AvailabilityZoneImpairmentPolicy = AvailabilityZoneImpairmentPolicy(
    impairedZoneHealthCheckBehavior: string,
    zonalShiftEnabled: Option<bool>)

  datatype CapacityReservationTarget = CapacityReservationTarget(
    capacityReservationIds: Slice<string>,
    capacityReservationResourceGroupArns: Slice<string>)

  datatype CapacityReservationSpecification = CapacityReservationSpecification(
    capacityReservationPreference: string,
    capacityReservationTarget: Option<CapacityReservationTarget>)

  datatype RetentionTriggers = RetentionTriggers(terminateHookAbandon: string)

  datatype InstanceLifecyclePolicy = InstanceLifecyclePolicy(retentionTriggers: Option<RetentionTriggers>)

  datatype InstanceMaintenancePolicy = InstanceMaintenancePolicy(
    maxHealthyPercentage: Option<int32>,
    minHealthyPercentage: Option<int32>)

  datatype LifecycleHookSpecification = LifecycleHookSpecification(
    defaultResult: Option<string>,
    heartbeatTimeout: Option<int32>,
    lifecycleHookName: Option<string>,
    lifecycleTransition: Option<string>,
    notificationMetadata: Option<string>,
    notificationTargetARN: Option<string>,
    roleARN: Option<string>)

  datatype InstancesDistribution = InstancesDistribution(
    onDemandAllocationStrategy: Option<string>,
    onDemandBaseCapacity: Option<int32>,
    onDemandPercentageAboveBaseCapacity: Option<int32>,
    spotAllocationStrategy: Option<string>,
    spotInstancePools: Option<int32>,
    spotMaxPrice: Option<string>)

  datatype IntRange = IntRange(max: Option<int32>, min: Option<int32>)

  datatype CpuPerformanceFactor = CpuPerformanceFactor(references: Slice<Api.PerformanceFactorReference>)
  datatype BaselinePerformanceFactors = BaselinePerformanceFactors(cpu: Option<CpuPerformanceFactor>)

  datatype InstanceRequirements = InstanceRequirements(
    acceleratorCount: Option<IntRange>,
    acceleratorManufacturers: Slice<string>,
    acceleratorNames: Slice<string>,
    acceleratorTotalMemoryMiB: Option<IntRange>,
    acceleratorTypes: Slice<string>,
    allowedInstanceTypes: Slice<string>,
    bareMetal: string,
    baselineEbsBandwidthMbps: Option<IntRange>,
    baselinePerformanceFactors: Option<BaselinePerformanceFactors>,
    burstablePerformance: string,
    cpuManufacturers: Slice<string>,
    excludedInstanceTypes: Slice<string>,
    instanceGenerations: Slice<string>,
    localStorage: string,
    localStorageTypes: Slice<string>,
    maxSpotPriceAsPercentageOfOptimalOnDemandPrice: Option<int32>,
    memoryGiBPerVCpu: Option<Api.FloatRange>,
    memoryMiB: Option<IntRange>,
    networkBandwidthGbps: Option<Api.FloatRange>,
    networkInterfaceCount: Option<IntRange>,
    onDemandMaxPricePercentageOverLowestPrice: Option<int32>,
    requireHibernateSupport: Option<bool>,
    spotMaxPricePercentageOverLowestPrice: Option<int32>,
    totalLocalStorageGB: Option<Api.FloatRange>,
    vCpuCount: Option<IntRange>)

  datatype LaunchTemplateOverrides = LaunchTemplateOverrides(
    imageId: Option<string>,
    instanceRequirements: Option<InstanceRequirements>,
    instanceType: Option<string>,
    launchTemplateSpecification: Option<Api.LaunchTemplateSpecification>,
    weightedCapacity: Option<string>)

  datatype LaunchTemplate = LaunchTemplate(
    launchTemplateSpecification: Option<Api.LaunchTemplateSpecification>,
    overrides: Slice<LaunchTemplateOverrides>)

  datatype MixedInstancesPolicy = MixedInstancesPolicy(
    instancesDistribution: Option<InstancesDistribution>,
    launchTemplate: Option<LaunchTemplate>)

  /** The fields that the create request, the update request and the described group share. */
  datatype Settings = Settings(
    name: Option<string>,
    availabilityZoneDistribution: Option<AvailabilityZoneDistribution>,
    availabilityZoneImpairmentPolicy: Option<AvailabilityZoneImpairmentPolicy>,
    availabilityZones: Slice<string>,
    capacityRebalance: Option<bool>,
    capacityReservationSpecification: Option<CapacityReservationSpecification>,
    defaultCooldown: Option<int32>,
    defaultInstanceWarmup: Option<int32>,
    desiredCapacity: Option<int32>,
    desiredCapacityType: Option<string>,
    healthCheckGracePeriod: Option<int32>,
    healthCheckType: Option<string>,
    instanceLifecyclePolicy: Option<InstanceLifecyclePolicy>,
    instanceMaintenancePolicy: Option<InstanceMaintenancePolicy>,
    launchConfigurationName: Option<string>,
    launchTemplate: Option<Api.LaunchTemplateSpecification>,
    maxInstanceLifetime: Option<int32>,
    maxSize: Option<int32>,
    minSize: Option<int32>,
    mixedInstancesPolicy: Option<MixedInstancesPolicy>,
    newInstancesProtectedFromScaleIn: Option<bool>,
    placementGroup: Option<string>,
    serviceLinkedRoleARN: Option<string>,
    terminationPolicies: Slice<string>,
    vpcZoneIdentifier: Option<string>)

  datatype CreateInput = CreateInput(
    settings: Settings,
    instanceId: Option<string>,
    lifecycleHooks: Slice<LifecycleHookSpecification>,
    loadBalancerNames: Slice<string>,
    skipZonalShiftValidation: Option<bool>,
    tags: Slice<Api.Tag>,
    targetGroupARNs: Slice<string>,
    trafficSources: Slice<Api.TrafficSource>)

  datatype UpdateInput = UpdateInput(settings: Settings, skipZonalShiftValidation: Option<bool>)

  /** One element of the DescribeAutoScalingGroups answer. */
  datatype Group = Group(
    settings: Settings,
    arn: Option<string>,
    loadBalancerNames: Slice<string>,
    tags: Slice<Api.Tag>,
    targetGroupARNs: Slice<string>,
    trafficSources: Slice<Api.TrafficSource>,
    status: Option<string>,
    predictedCapacity: Option<int32>)
}
