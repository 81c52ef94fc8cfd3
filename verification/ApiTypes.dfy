/** The value shapes of a CapacityProvider: the custom resource's Spec and Status
    (apis/v1alpha1/capacity_provider.go, apis/v1alpha1/types.go) and the shapes
    that the ECS SDK sends and returns for it.

    A Go pointer to a scalar or struct is an Option; a Go slice is an Option of a
    sequence, so that a nil slice (None) and an empty one (Some([])) stay apart.
    An SDK enum is a string that is "" when absent. Floats are reals. */
module ApiTypes {
  datatype Option<+T> = None | Some(value: T)

  /** What one Go call gives back: a value, an error, or a nil dereference. */
  datatype Outcome<+T> = Ok(value: T) | Err(field: string) | Panic {
    predicate IsFailure() { !Ok? }

    function PropagateFailure<U>(): Outcome<U>
      requires IsFailure()
    {
      match this
      case Err(f) => Err(f)
      case Panic => Panic
    }

    function Extract(): T
      requires Ok?
    {
      value
    }
  }

  const MAX_INT32 := 0x7FFF_FFFF
  const MIN_INT32 := -0x8000_0000

  type int32 = x: int | MIN_INT32 <= x <= MAX_INT32
  type int64 = x: int | -0x8000_0000_0000_0000 <= x <= 0x7FFF_FFFF_FFFF_FFFF

  type Slice<+T> = Option<seq<T>>
  type StringPList = Slice<Option<string>>

  function Elements<T>(s: Slice<T>): seq<T> {
    if s.None? then [] else s.value
  }

  /** A nil slice and an empty slice read the same. */
  function NilIfEmpty<T>(s: Slice<T>): Slice<T> {
    if Elements(s) == [] then None else s
  }

  predicate NoNil<T>(l: Slice<Option<T>>) {
    forall i :: 0 <= i < |Elements(l)| ==> Elements(l)[i].Some?
  }

  ghost predicate Distinct<T>(s: seq<T>) {
    forall i, j :: 0 <= i < j < |s| ==> s[i] != s[j]
  }

  lemma SmallerSet<T>(a: set<T>, b: set<T>)
    requires a <= b
    ensures |a| <= |b|
  {
    assert b == a + (b - a);
  }

  // ---- custom resource ----

  datatype Reference = Reference(name: Option<string>, namespace: Option<string>)

  datatype RefWrapper = RefWrapper(from: Option<Reference>)

  datatype Tag = Tag(key: Option<string>, value: Option<string>)

  type TagList = Slice<Option<Tag>>

  datatype ManagedScaling = ManagedScaling(
    instanceWarmupPeriod: Option<int64>,
    maximumScalingStepSize: Option<int64>,
    minimumScalingStepSize: Option<int64>,
    status: Option<string>,
    targetCapacity: Option<int64>)

  datatype AutoScalingGroupProvider = AutoScalingGroupProvider(
    arn: Option<string>,
    ref: Option<RefWrapper>,
    managedDraining: Option<string>,
    managedScaling: Option<ManagedScaling>,
    managedTerminationProtection: Option<string>)

  /** Shared by the {Max, Min} structs of the instance requirements. */
  datatype Range<+T> = Range(max: Option<T>, min: Option<T>)

  datatype InstanceRequirements = InstanceRequirements(
    acceleratorCount: Option<Range<int64>>,
    acceleratorManufacturers: StringPList,
    acceleratorNames: StringPList,
    acceleratorTotalMemoryMiB: Option<Range<int64>>,
    acceleratorTypes: StringPList,
    allowedInstanceTypes: StringPList,
    bareMetal: Option<string>,
    baselineEbsBandwidthMbps: Option<Range<int64>>,
    burstablePerformance: Option<string>,
    cpuManufacturers: StringPList,
    excludedInstanceTypes: StringPList,
    instanceGenerations: StringPList,
    localStorage: Option<string>,
    localStorageTypes: StringPList,
    maxSpotPricePercentage: Option<int64>,
    memoryGiBPerVCpu: Option<Range<real>>,
    memoryMiB: Option<Range<int64>>,
    networkBandwidthGbps: Option<Range<real>>,
    networkInterfaceCount: Option<Range<int64>>,
    onDemandMaxPricePercentage: Option<int64>,
    requireHibernateSupport: Option<bool>,
    spotMaxPricePercentage: Option<int64>,
    totalLocalStorageGB: Option<Range<real>>,
    vCpuCount: Option<Range<int64>>)

  datatype CapacityReservations = CapacityReservations(
    reservationGroupArn: Option<string>,
    reservationPreference: Option<string>)

  datatype LocalStorageConfiguration = LocalStorageConfiguration(useLocalStorage: Option<bool>)

  datatype StorageConfiguration = StorageConfiguration(storageSizeGiB: Option<int64>)

  datatype NetworkConfiguration = NetworkConfiguration(
    securityGroupRefs: Slice<Option<RefWrapper>>,
    securityGroups: StringPList,
    subnetRefs: Slice<Option<RefWrapper>>,
    subnets: StringPList)

  datatype InstanceLaunchTemplate = InstanceLaunchTemplate(
    capacityOptionType: Option<string>,
    capacityReservations: Option<CapacityReservations>,
    profileArn: Option<string>,
    profileRef: Option<RefWrapper>,
    fipsEnabled: Option<bool>,
    tagsPropagation: Option<bool>,
    requirements: Option<InstanceRequirements>,
    localStorage: Option<LocalStorageConfiguration>,
    monitoring: Option<string>,
    network: Option<NetworkConfiguration>,
    storage: Option<StorageConfiguration>)

  datatype AutoRepairConfiguration = AutoRepairConfiguration(actionsStatus: Option<string>)

  datatype InfrastructureOptimization = InfrastructureOptimization(scaleInAfter: Option<int64>)

  datatype ManagedInstancesProvider = ManagedInstancesProvider(
    autoRepair: Option<AutoRepairConfiguration>,
    optimization: Option<InfrastructureOptimization>,
    roleArn: Option<string>,
    roleRef: Option<RefWrapper>,
    template: Option<InstanceLaunchTemplate>,
    propagateTags: Option<string>)

  datatype Spec = Spec(
    asgp: Option<AutoScalingGroupProvider>,
    cluster: Option<string>,
    clusterRef: Option<RefWrapper>,
    mip: Option<ManagedInstancesProvider>,
    name: Option<string>,
    tags: TagList)

  datatype ResourceMetadata = ResourceMetadata(
    arn: Option<string>,
    ownerAccountId: Option<string>,
    partition: Option<string>,
    region: Option<string>)

  datatype ConditionType = Terminal | Recoverable | ResourceSynced | OtherType(name: string)

  datatype ConditionStatus = True | False | Unset | OtherStatus(text: string)

  datatype Condition = Condition(
    kind: ConditionType,
    status: ConditionStatus,
    message: Option<string>,
    reason: Option<string>)

  /** Whether some condition of a type is True. */
  predicate HasTrue(conditions: seq<Condition>, kind: ConditionType) {
    exists i :: 0 <= i < |conditions| && conditions[i].kind == kind && conditions[i].status == True
  }

  datatype Status = Status(
    metadata: Option<ResourceMetadata>,
    conditions: Slice<Option<Condition>>,
    status: Option<string>,
    kind: Option<string>,
    updateStatus: Option<string>,
    updateStatusReason: Option<string>)

  datatype CapacityProvider = CapacityProvider(namespace: string, spec: Spec, status: Status)

  const EMPTY_ASGP := AutoScalingGroupProvider(None, None, None, None, None)
  const EMPTY_NETWORK := NetworkConfiguration(None, None, None, None)
  const EMPTY_TEMPLATE :=
    InstanceLaunchTemplate(None, None, None, None, None, None, None, None, None, None, None)
  const EMPTY_MIP := ManagedInstancesProvider(None, None, None, None, None, None)

  // ---- SDK ----

  datatype SdkManagedScaling = SdkManagedScaling(
    instanceWarmupPeriod: Option<int32>,
    maximumScalingStepSize: Option<int32>,
    minimumScalingStepSize: Option<int32>,
    status: string,
    targetCapacity: Option<int32>)

  datatype SdkAsgp = SdkAsgp(
    arn: Option<string>,
    managedDraining: string,
    managedScaling: Option<SdkManagedScaling>,
    managedTerminationProtection: string)

  datatype SdkAsgpUpdate = SdkAsgpUpdate(
    managedDraining: string,
    managedScaling: Option<SdkManagedScaling>,
    managedTerminationProtection: string)

  datatype SdkRequirements = SdkRequirements(
    acceleratorCount: Option<Range<int32>>,
    acceleratorManufacturers: Slice<string>,
    acceleratorNames: Slice<string>,
    acceleratorTotalMemoryMiB: Option<Range<int32>>,
    acceleratorTypes: Slice<string>,
    allowedInstanceTypes: Slice<string>,
    bareMetal: string,
    baselineEbsBandwidthMbps: Option<Range<int32>>,
    burstablePerformance: string,
    cpuManufacturers: Slice<string>,
    excludedInstanceTypes: Slice<string>,
    instanceGenerations: Slice<string>,
    localStorage: string,
    localStorageTypes: Slice<string>,
    maxSpotPricePercentage: Option<int32>,
    memoryGiBPerVCpu: Option<Range<real>>,
    memoryMiB: Option<Range<int32>>,
    networkBandwidthGbps: Option<Range<real>>,
    networkInterfaceCount: Option<Range<int32>>,
    onDemandMaxPricePercentage: Option<int32>,
    requireHibernateSupport: Option<bool>,
    spotMaxPricePercentage: Option<int32>,
    totalLocalStorageGB: Option<Range<real>>,
    vCpuCount: Option<Range<int32>>)

  datatype SdkCapacityReservations = SdkCapacityReservations(
    reservationGroupArn: Option<string>,
    reservationPreference: string)

  datatype SdkNetwork = SdkNetwork(securityGroups: Slice<string>, subnets: Slice<string>)

  datatype SdkLocalStorage = SdkLocalStorage(useLocalStorage: bool)

  datatype SdkStorage = SdkStorage(storageSizeGiB: Option<int32>)

  datatype SdkTemplate = SdkTemplate(
    capacityOptionType: string,
    capacityReservations: Option<SdkCapacityReservations>,
    profileArn: Option<string>,
    fipsEnabled: Option<bool>,
    tagsPropagation: Option<bool>,
    requirements: Option<SdkRequirements>,
    localStorage: Option<SdkLocalStorage>,
    monitoring: string,
    network: Option<SdkNetwork>,
    storage: Option<SdkStorage>)

  datatype SdkTemplateUpdate = SdkTemplateUpdate(
    capacityReservations: Option<SdkCapacityReservations>,
    profileArn: Option<string>,
    tagsPropagation: Option<bool>,
    requirements: Option<SdkRequirements>,
    localStorage: Option<SdkLocalStorage>,
    monitoring: string,
    network: Option<SdkNetwork>,
    storage: Option<SdkStorage>)

  datatype SdkAutoRepair = SdkAutoRepair(actionsStatus: string)

  datatype SdkOptimization = SdkOptimization(scaleInAfter: Option<int32>)

  /** The managed instances settings, as sent in a create call and as returned. */
  datatype SdkMip = SdkMip(
    autoRepair: Option<SdkAutoRepair>,
    optimization: Option<SdkOptimization>,
    roleArn: Option<string>,
    template: Option<SdkTemplate>,
    propagateTags: string)

  datatype SdkMipUpdate = SdkMipUpdate(
    autoRepair: Option<SdkAutoRepair>,
    optimization: Option<SdkOptimization>,
    roleArn: Option<string>,
    template: Option<SdkTemplateUpdate>,
    propagateTags: string)

  datatype CreateInput = CreateInput(
    asgp: Option<SdkAsgp>,
    cluster: Option<string>,
    mip: Option<SdkMip>,
    name: Option<string>,
    tags: Slice<Tag>)

  datatype UpdateInput = UpdateInput(
    asgp: Option<SdkAsgpUpdate>,
    cluster: Option<string>,
    mip: Option<SdkMipUpdate>,
    name: Option<string>)

  /** One capacity provider in a service response. */
  datatype SdkCapacityProvider = SdkCapacityProvider(
    asgp: Option<SdkAsgp>,
    arn: Option<string>,
    cluster: Option<string>,
    mip: Option<SdkMip>,
    name: Option<string>,
    status: string,
    tags: Slice<Tag>,
    kind: string,
    updateStatus: string,
    updateStatusReason: Option<string>)
}
