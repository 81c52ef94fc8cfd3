/** newResourceDelta of pkg/resource/capacity_provider/delta.go: the paths at which two specs
    differ, and what it means that a path is reported. DeltaMethods.dfy fills the accumulator
    along the fields, as the source does.

    ackcompare.SliceStringPEqual is foreign: it is a parameter, of which only that it is
    reflexive or symmetric is used, and only where needed. */
module Delta {
  import opened ApiTypes
  import opened Tags

  type SliceEq = (seq<Option<string>>, seq<Option<string>>) -> bool

  /** A field name, as a number; the fields of one struct are numbered in the order in which
      they are compared. */
  type Field = nat

  const SPEC: Field := 0
  const AUTO_SCALING_GROUP_PROVIDER: Field := 1
  const CLUSTER: Field := 2
  const CLUSTER_REF: Field := 3
  const MANAGED_INSTANCES_PROVIDER: Field := 4
  const NAME: Field := 5
  const TAGS: Field := 6
  const INSTANCE_WARMUP_PERIOD: Field := 7
  const MAXIMUM_SCALING_STEP_SIZE: Field := 8
  const MINIMUM_SCALING_STEP_SIZE: Field := 9
  const STATUS: Field := 10
  const TARGET_CAPACITY: Field := 11
  const AUTO_SCALING_GROUP_ARN: Field := 12
  const MANAGED_DRAINING: Field := 13
  const MANAGED_SCALING: Field := 14
  const MANAGED_TERMINATION_PROTECTION: Field := 15
  const ACCELERATOR_COUNT: Field := 16
  const ACCELERATOR_MANUFACTURERS: Field := 17
  const ACCELERATOR_NAMES: Field := 18
  const ACCELERATOR_TOTAL_MEMORY_MIB: Field := 19
  const ACCELERATOR_TYPES: Field := 20
  const ALLOWED_INSTANCE_TYPES: Field := 21
  const BARE_METAL: Field := 22
  const BASELINE_EBS_BANDWIDTH_MBPS: Field := 23
  const BURSTABLE_PERFORMANCE: Field := 24
  const CPU_MANUFACTURERS: Field := 25
  const EXCLUDED_INSTANCE_TYPES: Field := 26
  const INSTANCE_GENERATIONS: Field := 27
  const LOCAL_STORAGE: Field := 28
  const LOCAL_STORAGE_TYPES: Field := 29
  const MAX_SPOT_PRICE_AS_PERCENTAGE_OF_OPTIMAL_ON_DEMAND_PRICE: Field := 30
  const MEMORY_GIB_PER_VCPU: Field := 31
  const MEMORY_MIB: Field := 32
  const NETWORK_BANDWIDTH_GBPS: Field := 33
  const NETWORK_INTERFACE_COUNT: Field := 34
  const ON_DEMAND_MAX_PRICE_PERCENTAGE_OVER_LOWEST_PRICE: Field := 35
  const REQUIRE_HIBERNATE_SUPPORT: Field := 36
  const SPOT_MAX_PRICE_PERCENTAGE_OVER_LOWEST_PRICE: Field := 37
  const TOTAL_LOCAL_STORAGE_GB: Field := 38
  const VCPU_COUNT: Field := 39
  const RESERVATION_GROUP_ARN: Field := 40
  const RESERVATION_PREFERENCE: Field := 41
  const USE_LOCAL_STORAGE: Field := 42
  const SECURITY_GROUPS: Field := 43
  const SUBNETS: Field := 44
  const STORAGE_SIZE_GIB: Field := 45
  const CAPACITY_OPTION_TYPE: Field := 46
  const CAPACITY_RESERVATIONS: Field := 47
  const EC2_INSTANCE_PROFILE_ARN: Field := 48
  const FIPS_ENABLED: Field := 49
  const INSTANCE_METADATA_TAGS_PROPAGATION: Field := 50
  const INSTANCE_REQUIREMENTS: Field := 51
  const LOCAL_STORAGE_CONFIGURATION: Field := 52
  const MONITORING: Field := 53
  const NETWORK_CONFIGURATION: Field := 54
  const STORAGE_CONFIGURATION: Field := 55
  const ACTIONS_STATUS: Field := 56
  const SCALE_IN_AFTER: Field := 57
  const AUTO_REPAIR_CONFIGURATION: Field := 58
  const INFRASTRUCTURE_OPTIMIZATION: Field := 59
  const INFRASTRUCTURE_ROLE_ARN: Field := 60
  const INSTANCE_LAUNCH_TEMPLATE: Field := 61
  const PROPAGATE_TAGS: Field := 62
  const MAX: Field := 63
  const MIN: Field := 64

  type Path = seq<Field>

  // ---- what a comparison finds, as a tree ----

  /** Whether two values differ, or whether two struct pointers differ in being nil and, if
      neither is, what the comparison of their fields finds. */
  datatype Tree =
    | Leaf(name: Field, differs: bool)
    | Struct(name: Field, nilDiffers: bool, fields: seq<Tree>)

  /** The paths a comparison in the struct at p reports. */
  function Diff(p: Path, t: Tree): seq<Path>
    decreases t, 0
  {
    match t
    case Leaf(name, differs) => if differs then [p + [name]] else []
    case Struct(name, nilDiffers, fields) => if nilDiffers then [p + [name]] else DiffFields(p + [name], fields)
  }

  function DiffFields(p: Path, fs: seq<Tree>): seq<Path>
    decreases fs, 0
  {
    if fs == [] then [] else DiffFields(p, fs[..|fs| - 1]) + Diff(p, fs[|fs| - 1])
  }

  /** Siblings have different names, in source order. */
  predicate Ordered(fs: seq<Tree>) {
    forall i :: 0 < i < |fs| ==> fs[i - 1].name < fs[i].name
  }

  predicate WellFormed(t: Tree) {
    t.Struct? ==> Ordered(t.fields) && forall i :: 0 <= i < |t.fields| ==> WellFormed(t.fields[i])
  }

  predicate Clean(t: Tree) {
    match t
    case Leaf(_, differs) => !differs
    case Struct(_, nilDiffers, fields) => !nilDiffers && forall i :: 0 <= i < |fields| ==> Clean(fields[i])
  }

  predicate AllClean(fs: seq<Tree>) {
    forall i :: 0 <= i < |fs| ==> Clean(fs[i])
  }

  predicate AllWellFormed(fs: seq<Tree>) {
    Ordered(fs) && forall i :: 0 <= i < |fs| ==> WellFormed(fs[i])
  }

  // ---- the tree of two specs ----

  function PointerTree<T(==)>(name: Field, a: Option<T>, b: Option<T>): Tree {
    Leaf(name, a != b)
  }

  predicate ListsMatch(eq: SliceEq, a: StringPList, b: StringPList) {
    |Elements(a)| == |Elements(b)| && (|Elements(a)| > 0 ==> eq(Elements(a), Elements(b)))
  }

  function ListTree(eq: SliceEq, name: Field, a: StringPList, b: StringPList): Tree {
    Leaf(name, !ListsMatch(eq, a, b))
  }

  function RangeTree<T(==)>(name: Field, a: Option<Range<T>>, b: Option<Range<T>>): Tree {
    if a.None? || b.None? then Struct(name, a.Some? != b.Some?, [])
    else
      Struct(name, false, [PointerTree(MAX, a.value.max, b.value.max), PointerTree(MIN, a.value.min, b.value.min)])
  }

  function ScalingFields(a: ManagedScaling, b: ManagedScaling): seq<Tree> {
    [ PointerTree(INSTANCE_WARMUP_PERIOD, a.instanceWarmupPeriod, b.instanceWarmupPeriod),
      PointerTree(MAXIMUM_SCALING_STEP_SIZE, a.maximumScalingStepSize, b.maximumScalingStepSize),
      PointerTree(MINIMUM_SCALING_STEP_SIZE, a.minimumScalingStepSize, b.minimumScalingStepSize),
      PointerTree(STATUS, a.status, b.status),
      PointerTree(TARGET_CAPACITY, a.targetCapacity, b.targetCapacity)]
  }

  function ScalingTree(a: Option<ManagedScaling>, b: Option<ManagedScaling>): Tree {
    if a.Some? && b.Some? then Struct(MANAGED_SCALING, false, ScalingFields(a.value, b.value))
    else Struct(MANAGED_SCALING, a.Some? != b.Some?, [])
  }

  function AsgpFields(a: AutoScalingGroupProvider, b: AutoScalingGroupProvider): seq<Tree> {
    [ PointerTree(AUTO_SCALING_GROUP_ARN, a.arn, b.arn),
      PointerTree(MANAGED_DRAINING, a.managedDraining, b.managedDraining),
      ScalingTree(a.managedScaling, b.managedScaling),
      PointerTree(MANAGED_TERMINATION_PROTECTION, a.managedTerminationProtection, b.managedTerminationProtection)]
  }

  function AsgpTree(a: Option<AutoScalingGroupProvider>, b: Option<AutoScalingGroupProvider>): Tree {
    if a.Some? && b.Some? then Struct(AUTO_SCALING_GROUP_PROVIDER, false, AsgpFields(a.value, b.value))
    else Struct(AUTO_SCALING_GROUP_PROVIDER, a.Some? != b.Some?, [])
  }

  function AcceleratorFields(eq: SliceEq, a: InstanceRequirements, b: InstanceRequirements): seq<Tree> {
    [ RangeTree(ACCELERATOR_COUNT, a.acceleratorCount, b.acceleratorCount),
      ListTree(eq, ACCELERATOR_MANUFACTURERS, a.acceleratorManufacturers, b.acceleratorManufacturers),
      ListTree(eq, ACCELERATOR_NAMES, a.acceleratorNames, b.acceleratorNames),
      RangeTree(ACCELERATOR_TOTAL_MEMORY_MIB, a.acceleratorTotalMemoryMiB, b.acceleratorTotalMemoryMiB),
      ListTree(eq, ACCELERATOR_TYPES, a.acceleratorTypes, b.acceleratorTypes),
      ListTree(eq, ALLOWED_INSTANCE_TYPES, a.allowedInstanceTypes, b.allowedInstanceTypes),
      PointerTree(BARE_METAL, a.bareMetal, b.bareMetal),
      RangeTree(BASELINE_EBS_BANDWIDTH_MBPS, a.baselineEbsBandwidthMbps, b.baselineEbsBandwidthMbps)]
  }

  function InstanceFields(eq: SliceEq, a: InstanceRequirements, b: InstanceRequirements): seq<Tree> {
    [ PointerTree(BURSTABLE_PERFORMANCE, a.burstablePerformance, b.burstablePerformance),
      ListTree(eq, CPU_MANUFACTURERS, a.cpuManufacturers, b.cpuManufacturers),
      ListTree(eq, EXCLUDED_INSTANCE_TYPES, a.excludedInstanceTypes, b.excludedInstanceTypes),
      ListTree(eq, INSTANCE_GENERATIONS, a.instanceGenerations, b.instanceGenerations),
      PointerTree(LOCAL_STORAGE, a.localStorage, b.localStorage),
      ListTree(eq, LOCAL_STORAGE_TYPES, a.localStorageTypes, b.localStorageTypes),
      PointerTree(MAX_SPOT_PRICE_AS_PERCENTAGE_OF_OPTIMAL_ON_DEMAND_PRICE, a.maxSpotPricePercentage,
                  b.maxSpotPricePercentage),
      RangeTree(MEMORY_GIB_PER_VCPU, a.memoryGiBPerVCpu, b.memoryGiBPerVCpu)]
  }

  function CapacityFields(eq: SliceEq, a: InstanceRequirements, b: InstanceRequirements): seq<Tree> {
    [ RangeTree(MEMORY_MIB, a.memoryMiB, b.memoryMiB),
      RangeTree(NETWORK_BANDWIDTH_GBPS, a.networkBandwidthGbps, b.networkBandwidthGbps),
      RangeTree(NETWORK_INTERFACE_COUNT, a.networkInterfaceCount, b.networkInterfaceCount),
      PointerTree(ON_DEMAND_MAX_PRICE_PERCENTAGE_OVER_LOWEST_PRICE, a.onDemandMaxPricePercentage,
                  b.onDemandMaxPricePercentage),
      PointerTree(REQUIRE_HIBERNATE_SUPPORT, a.requireHibernateSupport, b.requireHibernateSupport),
      PointerTree(SPOT_MAX_PRICE_PERCENTAGE_OVER_LOWEST_PRICE, a.spotMaxPricePercentage, b.spotMaxPricePercentage),
      RangeTree(TOTAL_LOCAL_STORAGE_GB, a.totalLocalStorageGB, b.totalLocalStorageGB),
      RangeTree(VCPU_COUNT, a.vCpuCount, b.vCpuCount)]
  }

  function RequirementsFields(eq: SliceEq, a: InstanceRequirements, b: InstanceRequirements): seq<Tree> {
    AcceleratorFields(eq, a, b) + (InstanceFields(eq, a, b) + CapacityFields(eq, a, b))
  }

  function RequirementsTree(eq: SliceEq, a: Option<InstanceRequirements>, b: Option<InstanceRequirements>): Tree {
    if a.Some? && b.Some? then Struct(INSTANCE_REQUIREMENTS, false, RequirementsFields(eq, a.value, b.value))
    else Struct(INSTANCE_REQUIREMENTS, a.Some? != b.Some?, [])
  }

  function ReservationsFields(a: CapacityReservations, b: CapacityReservations): seq<Tree> {
    [ PointerTree(RESERVATION_GROUP_ARN, a.reservationGroupArn, b.reservationGroupArn),
      PointerTree(RESERVATION_PREFERENCE, a.reservationPreference, b.reservationPreference)]
  }

  function ReservationsTree(a: Option<CapacityReservations>, b: Option<CapacityReservations>): Tree {
    if a.Some? && b.Some? then Struct(CAPACITY_RESERVATIONS, false, ReservationsFields(a.value, b.value))
    else Struct(CAPACITY_RESERVATIONS, a.Some? != b.Some?, [])
  }

  function LocalStorageFields(a: LocalStorageConfiguration, b: LocalStorageConfiguration): seq<Tree> {
    [ PointerTree(USE_LOCAL_STORAGE, a.useLocalStorage, b.useLocalStorage)]
  }

  function LocalStorageTree(a: Option<LocalStorageConfiguration>, b: Option<LocalStorageConfiguration>): Tree {
    if a.Some? && b.Some? then Struct(LOCAL_STORAGE_CONFIGURATION, false, LocalStorageFields(a.value, b.value))
    else Struct(LOCAL_STORAGE_CONFIGURATION, a.Some? != b.Some?, [])
  }

  function NetworkFields(eq: SliceEq, a: NetworkConfiguration, b: NetworkConfiguration): seq<Tree> {
    [ ListTree(eq, SECURITY_GROUPS, a.securityGroups, b.securityGroups),
      ListTree(eq, SUBNETS, a.subnets, b.subnets)]
  }

  function NetworkTree(eq: SliceEq, a: Option<NetworkConfiguration>, b: Option<NetworkConfiguration>): Tree {
    if a.Some? && b.Some? then Struct(NETWORK_CONFIGURATION, false, NetworkFields(eq, a.value, b.value))
    else Struct(NETWORK_CONFIGURATION, a.Some? != b.Some?, [])
  }

  function StorageFields(a: StorageConfiguration, b: StorageConfiguration): seq<Tree> {
    [ PointerTree(STORAGE_SIZE_GIB, a.storageSizeGiB, b.storageSizeGiB)]
  }

  function StorageTree(a: Option<StorageConfiguration>, b: Option<StorageConfiguration>): Tree {
    if a.Some? && b.Some? then Struct(STORAGE_CONFIGURATION, false, StorageFields(a.value, b.value))
    else Struct(STORAGE_CONFIGURATION, a.Some? != b.Some?, [])
  }

  function TemplateFields(eq: SliceEq, a: InstanceLaunchTemplate, b: InstanceLaunchTemplate): seq<Tree> {
    [ PointerTree(CAPACITY_OPTION_TYPE, a.capacityOptionType, b.capacityOptionType),
      ReservationsTree(a.capacityReservations, b.capacityReservations),
      PointerTree(EC2_INSTANCE_PROFILE_ARN, a.profileArn, b.profileArn),
      PointerTree(FIPS_ENABLED, a.fipsEnabled, b.fipsEnabled),
      PointerTree(INSTANCE_METADATA_TAGS_PROPAGATION, a.tagsPropagation, b.tagsPropagation),
      RequirementsTree(eq, a.requirements, b.requirements),
      LocalStorageTree(a.localStorage, b.localStorage),
      PointerTree(MONITORING, a.monitoring, b.monitoring),
      NetworkTree(eq, a.network, b.network),
      StorageTree(a.storage, b.storage)]
  }

  function TemplateTree(eq: SliceEq, a: Option<InstanceLaunchTemplate>, b: Option<InstanceLaunchTemplate>): Tree {
    if a.Some? && b.Some? then Struct(INSTANCE_LAUNCH_TEMPLATE, false, TemplateFields(eq, a.value, b.value))
    else Struct(INSTANCE_LAUNCH_TEMPLATE, a.Some? != b.Some?, [])
  }

  function AutoRepairFields(a: AutoRepairConfiguration, b: AutoRepairConfiguration): seq<Tree> {
    [ PointerTree(ACTIONS_STATUS, a.actionsStatus, b.actionsStatus)]
  }

  function AutoRepairTree(a: Option<AutoRepairConfiguration>, b: Option<AutoRepairConfiguration>): Tree {
    if a.Some? && b.Some? then Struct(AUTO_REPAIR_CONFIGURATION, false, AutoRepairFields(a.value, b.value))
    else Struct(AUTO_REPAIR_CONFIGURATION, a.Some? != b.Some?, [])
  }

  function OptimizationFields(a: InfrastructureOptimization, b: InfrastructureOptimization): seq<Tree> {
    [ PointerTree(SCALE_IN_AFTER, a.scaleInAfter, b.scaleInAfter)]
  }

  function OptimizationTree(a: Option<InfrastructureOptimization>, b: Option<InfrastructureOptimization>): Tree {
    if a.Some? && b.Some? then Struct(INFRASTRUCTURE_OPTIMIZATION, false, OptimizationFields(a.value, b.value))
    else Struct(INFRASTRUCTURE_OPTIMIZATION, a.Some? != b.Some?, [])
  }

  function MipFields(eq: SliceEq, a: ManagedInstancesProvider, b: ManagedInstancesProvider): seq<Tree> {
    [ AutoRepairTree(a.autoRepair, b.autoRepair),
      OptimizationTree(a.optimization, b.optimization),
      PointerTree(INFRASTRUCTURE_ROLE_ARN, a.roleArn, b.roleArn),
      TemplateTree(eq, a.template, b.template),
      PointerTree(PROPAGATE_TAGS, a.propagateTags, b.propagateTags)]
  }

  function MipTree(eq: SliceEq, a: Option<ManagedInstancesProvider>, b: Option<ManagedInstancesProvider>): Tree {
    if a.Some? && b.Some? then Struct(MANAGED_INSTANCES_PROVIDER, false, MipFields(eq, a.value, b.value))
    else Struct(MANAGED_INSTANCES_PROVIDER, a.Some? != b.Some?, [])
  }

  function SpecFields(eq: SliceEq, a: Spec, b: Spec): seq<Tree>
    requires NoNil(a.tags) && NoNil(b.tags)
  {
    [ AsgpTree(a.asgp, b.asgp),
      PointerTree(CLUSTER, a.cluster, b.cluster),
      PointerTree(CLUSTER_REF, a.clusterRef, b.clusterRef),
      MipTree(eq, a.mip, b.mip),
      PointerTree(NAME, a.name, b.name),
      Leaf(TAGS, AckTags(TagsOf(a.tags)) != AckTags(TagsOf(b.tags)))]
  }

  /** newResourceDelta: the reported paths; a nil resource against another is the empty path. */
  function DeltaOf(eq: SliceEq, a: Option<Spec>, b: Option<Spec>): seq<Path>
    requires a.Some? || b.Some?
    requires a.Some? && b.Some? ==> NoNil(a.value.tags) && NoNil(b.value.tags)
  {
    if a.None? || b.None? then [[]] else DiffFields([SPEC], SpecFields(eq, a.value, b.value))
  }
}
