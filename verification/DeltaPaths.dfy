/** Which paths newResourceDelta reports, over the two specs: a path is reported exactly when
    every struct on the way to it is there on both sides and what it leads to differs. */
module DeltaPaths {
  import opened ApiTypes
  import opened Delta
  import opened DeltaLaws
  import opened References
  import opened Tags

  /** What a path leads to in a spec: nowhere when a struct on the way is nil or has no such field,
      a struct pointer, or the contents of a field. */
  datatype Entry =
    | Nowhere
    | Nested(present: bool)
    | Text(text: Option<string>)
    | Number(number: Option<int64>)
    | Decimal(decimal: Option<real>)
    | Flag(flag: Option<bool>)
    | Texts(texts: StringPList)
    | Wrapper(wrapper: Option<RefWrapper>)
    | TagMapping(tags: TagMap)

  predicate Differ(eq: SliceEq, a: Entry, b: Entry) {
    match (a, b)
    case (Nowhere, _) => false
    case (_, Nowhere) => false
    case (Texts(x), Texts(y)) =>
      |Elements(x)| != |Elements(y)| || (Elements(x) != [] && !eq(Elements(x), Elements(y)))
    case _ => a != b
  }

  // ---- what a path leads to ----

  function RangeAt(r: Option<Range<int64>>, q: Path): Entry {
    if q == [] then Nested(r.Some?)
    else if r.None? then Nowhere
    else if q == [MAX] then Number(r.value.max)
    else if q == [MIN] then Number(r.value.min)
    else Nowhere
  }

  function FloatRangeAt(r: Option<Range<real>>, q: Path): Entry {
    if q == [] then Nested(r.Some?)
    else if r.None? then Nowhere
    else if q == [MAX] then Decimal(r.value.max)
    else if q == [MIN] then Decimal(r.value.min)
    else Nowhere
  }

  function ScalingAt(s: Option<ManagedScaling>, q: Path): Entry {
    if q == [] then Nested(s.Some?)
    else if s.None? then Nowhere
    else if q == [INSTANCE_WARMUP_PERIOD] then Number(s.value.instanceWarmupPeriod)
    else if q == [MAXIMUM_SCALING_STEP_SIZE] then Number(s.value.maximumScalingStepSize)
    else if q == [MINIMUM_SCALING_STEP_SIZE] then Number(s.value.minimumScalingStepSize)
    else if q == [STATUS] then Text(s.value.status)
    else if q == [TARGET_CAPACITY] then Number(s.value.targetCapacity)
    else Nowhere
  }

  function AsgpAt(s: Option<AutoScalingGroupProvider>, q: Path): Entry {
    if q == [] then Nested(s.Some?)
    else if s.None? then Nowhere
    else if q == [AUTO_SCALING_GROUP_ARN] then Text(s.value.arn)
    else if q == [MANAGED_DRAINING] then Text(s.value.managedDraining)
    else if q[0] == MANAGED_SCALING then ScalingAt(s.value.managedScaling, q[1..])
    else if q == [MANAGED_TERMINATION_PROTECTION] then Text(s.value.managedTerminationProtection)
    else Nowhere
  }

  function AcceleratorAt(s: InstanceRequirements, q: Path): Entry
    requires q != []
  {
    if q[0] == ACCELERATOR_COUNT then RangeAt(s.acceleratorCount, q[1..])
    else if q == [ACCELERATOR_MANUFACTURERS] then Texts(s.acceleratorManufacturers)
    else if q == [ACCELERATOR_NAMES] then Texts(s.acceleratorNames)
    else if q[0] == ACCELERATOR_TOTAL_MEMORY_MIB then RangeAt(s.acceleratorTotalMemoryMiB, q[1..])
    else if q == [ACCELERATOR_TYPES] then Texts(s.acceleratorTypes)
    else if q == [ALLOWED_INSTANCE_TYPES] then Texts(s.allowedInstanceTypes)
    else if q == [BARE_METAL] then Text(s.bareMetal)
    else if q[0] == BASELINE_EBS_BANDWIDTH_MBPS then RangeAt(s.baselineEbsBandwidthMbps, q[1..])
    else Nowhere
  }

  function InstanceAt(s: InstanceRequirements, q: Path): Entry
    requires q != []
  {
    if q == [BURSTABLE_PERFORMANCE] then Text(s.burstablePerformance)
    else if q == [CPU_MANUFACTURERS] then Texts(s.cpuManufacturers)
    else if q == [EXCLUDED_INSTANCE_TYPES] then Texts(s.excludedInstanceTypes)
    else if q == [INSTANCE_GENERATIONS] then Texts(s.instanceGenerations)
    else if q == [LOCAL_STORAGE] then Text(s.localStorage)
    else if q == [LOCAL_STORAGE_TYPES] then Texts(s.localStorageTypes)
    else if q == [MAX_SPOT_PRICE_AS_PERCENTAGE_OF_OPTIMAL_ON_DEMAND_PRICE] then Number(s.maxSpotPricePercentage)
    else if q[0] == MEMORY_GIB_PER_VCPU then FloatRangeAt(s.memoryGiBPerVCpu, q[1..])
    else Nowhere
  }

  function CapacityAt(s: InstanceRequirements, q: Path): Entry
    requires q != []
  {
    if q[0] == MEMORY_MIB then RangeAt(s.memoryMiB, q[1..])
    else if q[0] == NETWORK_BANDWIDTH_GBPS then FloatRangeAt(s.networkBandwidthGbps, q[1..])
    else if q[0] == NETWORK_INTERFACE_COUNT then RangeAt(s.networkInterfaceCount, q[1..])
    else if q == [ON_DEMAND_MAX_PRICE_PERCENTAGE_OVER_LOWEST_PRICE] then Number(s.onDemandMaxPricePercentage)
    else if q == [REQUIRE_HIBERNATE_SUPPORT] then Flag(s.requireHibernateSupport)
    else if q == [SPOT_MAX_PRICE_PERCENTAGE_OVER_LOWEST_PRICE] then Number(s.spotMaxPricePercentage)
    else if q[0] == TOTAL_LOCAL_STORAGE_GB then FloatRangeAt(s.totalLocalStorageGB, q[1..])
    else if q[0] == VCPU_COUNT then RangeAt(s.vCpuCount, q[1..])
    else Nowhere
  }

  function RequirementsAt(r: Option<InstanceRequirements>, q: Path): Entry {
    if q == [] then Nested(r.Some?)
    else if r.None? then Nowhere
    else if q[0] <= BASELINE_EBS_BANDWIDTH_MBPS then AcceleratorAt(r.value, q)
    else if q[0] <= MEMORY_GIB_PER_VCPU then InstanceAt(r.value, q)
    else CapacityAt(r.value, q)
  }

  function ReservationsAt(s: Option<CapacityReservations>, q: Path): Entry {
    if q == [] then Nested(s.Some?)
    else if s.None? then Nowhere
    else if q == [RESERVATION_GROUP_ARN] then Text(s.value.reservationGroupArn)
    else if q == [RESERVATION_PREFERENCE] then Text(s.value.reservationPreference)
    else Nowhere
  }

  function LocalStorageAt(s: Option<LocalStorageConfiguration>, q: Path): Entry {
    if q == [] then Nested(s.Some?)
    else if s.None? then Nowhere
    else if q == [USE_LOCAL_STORAGE] then Flag(s.value.useLocalStorage)
    else Nowhere
  }

  function NetworkAt(s: Option<NetworkConfiguration>, q: Path): Entry {
    if q == [] then Nested(s.Some?)
    else if s.None? then Nowhere
    else if q == [SECURITY_GROUPS] then Texts(s.value.securityGroups)
    else if q == [SUBNETS] then Texts(s.value.subnets)
    else Nowhere
  }

  function StorageAt(s: Option<StorageConfiguration>, q: Path): Entry {
    if q == [] then Nested(s.Some?)
    else if s.None? then Nowhere
    else if q == [STORAGE_SIZE_GIB] then Number(s.value.storageSizeGiB)
    else Nowhere
  }

  function TemplateAt(s: Option<InstanceLaunchTemplate>, q: Path): Entry {
    if q == [] then Nested(s.Some?)
    else if s.None? then Nowhere
    else if q == [CAPACITY_OPTION_TYPE] then Text(s.value.capacityOptionType)
    else if q[0] == CAPACITY_RESERVATIONS then ReservationsAt(s.value.capacityReservations, q[1..])
    else if q == [EC2_INSTANCE_PROFILE_ARN] then Text(s.value.profileArn)
    else if q == [FIPS_ENABLED] then Flag(s.value.fipsEnabled)
    else if q == [INSTANCE_METADATA_TAGS_PROPAGATION] then Flag(s.value.tagsPropagation)
    else if q[0] == INSTANCE_REQUIREMENTS then RequirementsAt(s.value.requirements, q[1..])
    else if q[0] == LOCAL_STORAGE_CONFIGURATION then LocalStorageAt(s.value.localStorage, q[1..])
    else if q == [MONITORING] then Text(s.value.monitoring)
    else if q[0] == NETWORK_CONFIGURATION then NetworkAt(s.value.network, q[1..])
    else if q[0] == STORAGE_CONFIGURATION then StorageAt(s.value.storage, q[1..])
    else Nowhere
  }

  function AutoRepairAt(s: Option<AutoRepairConfiguration>, q: Path): Entry {
    if q == [] then Nested(s.Some?)
    else if s.None? then Nowhere
    else if q == [ACTIONS_STATUS] then Text(s.value.actionsStatus)
    else Nowhere
  }

  function OptimizationAt(s: Option<InfrastructureOptimization>, q: Path): Entry {
    if q == [] then Nested(s.Some?)
    else if s.None? then Nowhere
    else if q == [SCALE_IN_AFTER] then Number(s.value.scaleInAfter)
    else Nowhere
  }

  function MipAt(s: Option<ManagedInstancesProvider>, q: Path): Entry {
    if q == [] then Nested(s.Some?)
    else if s.None? then Nowhere
    else if q[0] == AUTO_REPAIR_CONFIGURATION then AutoRepairAt(s.value.autoRepair, q[1..])
    else if q[0] == INFRASTRUCTURE_OPTIMIZATION then OptimizationAt(s.value.optimization, q[1..])
    else if q == [INFRASTRUCTURE_ROLE_ARN] then Text(s.value.roleArn)
    else if q[0] == INSTANCE_LAUNCH_TEMPLATE then TemplateAt(s.value.template, q[1..])
    else if q == [PROPAGATE_TAGS] then Text(s.value.propagateTags)
    else Nowhere
  }

  /** The paths below Spec. */
  function SpecAt(s: Spec, q: Path): Entry
    requires NoNil(s.tags)
  {
    if q == [] then Nested(true)
    else if q[0] == AUTO_SCALING_GROUP_PROVIDER then AsgpAt(s.asgp, q[1..])
    else if q == [CLUSTER] then Text(s.cluster)
    else if q == [CLUSTER_REF] then Wrapper(s.clusterRef)
    else if q[0] == MANAGED_INSTANCES_PROVIDER then MipAt(s.mip, q[1..])
    else if q == [NAME] then Text(s.name)
    else if q == [TAGS] then TagMapping(AckTags(TagsOf(s.tags)))
    else Nowhere
  }

  // ---- the reported paths ----

  lemma OneField(q: Path)
    requires q != []
    ensures forall n :: q == [n] <==> q[0] == n && q[1..] == []
  {
    assert q == [q[0]] + q[1..];
  }

  lemma NoFields(q: Path)
    ensures !DiffersAt([], q)
  {
  }

  lemma RangePaths(eq: SliceEq, name: Field, a: Option<Range<int64>>, b: Option<Range<int64>>, q: Path)
    ensures FieldDiffersAt(RangeTree(name, a, b), q) <==> Differ(eq, RangeAt(a, q), RangeAt(b, q))
    ensures RangeTree(name, a, b).name == name
  {
    NoFields(q);
    if q != [] && a.Some? && b.Some? {
      OneField(q);
      var fs := RangeTree(name, a, b).fields;
      assert fs[0] == PointerTree(MAX, a.value.max, b.value.max);
      assert fs[1] == PointerTree(MIN, a.value.min, b.value.min);
      assert DiffersAt(fs, q) <==> Differ(eq, RangeAt(a, q), RangeAt(b, q));
    }
  }

  lemma FloatRangePaths(eq: SliceEq, name: Field, a: Option<Range<real>>, b: Option<Range<real>>, q: Path)
    ensures FieldDiffersAt(RangeTree(name, a, b), q) <==> Differ(eq, FloatRangeAt(a, q), FloatRangeAt(b, q))
    ensures RangeTree(name, a, b).name == name
  {
    NoFields(q);
    if q != [] && a.Some? && b.Some? {
      OneField(q);
      var fs := RangeTree(name, a, b).fields;
      assert fs[0] == PointerTree(MAX, a.value.max, b.value.max);
      assert fs[1] == PointerTree(MIN, a.value.min, b.value.min);
      assert DiffersAt(fs, q) <==> Differ(eq, FloatRangeAt(a, q), FloatRangeAt(b, q));
    }
  }

  lemma ScalingPaths(eq: SliceEq, a: Option<ManagedScaling>, b: Option<ManagedScaling>, q: Path)
    ensures FieldDiffersAt(ScalingTree(a, b), q) <==> Differ(eq, ScalingAt(a, q), ScalingAt(b, q))
    ensures ScalingTree(a, b).name == MANAGED_SCALING
  {
    NoFields(q);
    if q != [] && a.Some? && b.Some? {
      var x, y := a.value, b.value;
      OneField(q);
      var fs := ScalingFields(x, y);
      assert fs[0] == PointerTree(INSTANCE_WARMUP_PERIOD, x.instanceWarmupPeriod, y.instanceWarmupPeriod);
      assert fs[1] == PointerTree(MAXIMUM_SCALING_STEP_SIZE, x.maximumScalingStepSize, y.maximumScalingStepSize);
      assert fs[2] == PointerTree(MINIMUM_SCALING_STEP_SIZE, x.minimumScalingStepSize, y.minimumScalingStepSize);
      assert fs[3] == PointerTree(STATUS, x.status, y.status);
      assert fs[4] == PointerTree(TARGET_CAPACITY, x.targetCapacity, y.targetCapacity);
      assert DiffersAt(fs, q) <==> Differ(eq, ScalingAt(a, q), ScalingAt(b, q));
    }
  }

  lemma AsgpPaths(eq: SliceEq, a: Option<AutoScalingGroupProvider>, b: Option<AutoScalingGroupProvider>, q: Path)
    ensures FieldDiffersAt(AsgpTree(a, b), q) <==> Differ(eq, AsgpAt(a, q), AsgpAt(b, q))
    ensures AsgpTree(a, b).name == AUTO_SCALING_GROUP_PROVIDER
  {
    hide ScalingTree, ScalingAt;
    NoFields(q);
    if q != [] && a.Some? && b.Some? {
      var x, y := a.value, b.value;
      OneField(q);
      var fs := AsgpFields(x, y);
      assert fs[0] == PointerTree(AUTO_SCALING_GROUP_ARN, x.arn, y.arn);
      assert fs[1] == PointerTree(MANAGED_DRAINING, x.managedDraining, y.managedDraining);
      assert fs[2] == ScalingTree(x.managedScaling, y.managedScaling);
      ScalingPaths(eq, x.managedScaling, y.managedScaling, q[1..]);
      assert fs[3] == PointerTree(MANAGED_TERMINATION_PROTECTION, x.managedTerminationProtection,
                                  y.managedTerminationProtection);
      assert DiffersAt(fs, q) <==> Differ(eq, AsgpAt(a, q), AsgpAt(b, q));
    }
  }

  lemma AcceleratorPaths(eq: SliceEq, a: InstanceRequirements, b: InstanceRequirements, q: Path)
    requires q != []
    ensures DiffersAt(AcceleratorFields(eq, a, b), q) <==> Differ(eq, AcceleratorAt(a, q), AcceleratorAt(b, q))
  {
    hide RangeTree, RangeAt;
    OneField(q);
    var fs := AcceleratorFields(eq, a, b);
    assert fs[0] == RangeTree(ACCELERATOR_COUNT, a.acceleratorCount, b.acceleratorCount);
    RangePaths(eq, ACCELERATOR_COUNT, a.acceleratorCount, b.acceleratorCount, q[1..]);
    assert fs[1] == ListTree(eq, ACCELERATOR_MANUFACTURERS, a.acceleratorManufacturers, b.acceleratorManufacturers);
    assert fs[2] == ListTree(eq, ACCELERATOR_NAMES, a.acceleratorNames, b.acceleratorNames);
    assert fs[3] == RangeTree(ACCELERATOR_TOTAL_MEMORY_MIB, a.acceleratorTotalMemoryMiB, b.acceleratorTotalMemoryMiB);
    RangePaths(eq, ACCELERATOR_TOTAL_MEMORY_MIB, a.acceleratorTotalMemoryMiB, b.acceleratorTotalMemoryMiB, q[1..]);
    assert fs[4] == ListTree(eq, ACCELERATOR_TYPES, a.acceleratorTypes, b.acceleratorTypes);
    assert fs[5] == ListTree(eq, ALLOWED_INSTANCE_TYPES, a.allowedInstanceTypes, b.allowedInstanceTypes);
    assert fs[6] == PointerTree(BARE_METAL, a.bareMetal, b.bareMetal);
    assert fs[7] == RangeTree(BASELINE_EBS_BANDWIDTH_MBPS, a.baselineEbsBandwidthMbps, b.baselineEbsBandwidthMbps);
    RangePaths(eq, BASELINE_EBS_BANDWIDTH_MBPS, a.baselineEbsBandwidthMbps, b.baselineEbsBandwidthMbps, q[1..]);
  }

  lemma InstancePaths(eq: SliceEq, a: InstanceRequirements, b: InstanceRequirements, q: Path)
    requires q != []
    ensures DiffersAt(InstanceFields(eq, a, b), q) <==> Differ(eq, InstanceAt(a, q), InstanceAt(b, q))
  {
    hide RangeTree, FloatRangeAt;
    OneField(q);
    var fs := InstanceFields(eq, a, b);
    assert fs[0] == PointerTree(BURSTABLE_PERFORMANCE, a.burstablePerformance, b.burstablePerformance);
    assert fs[1] == ListTree(eq, CPU_MANUFACTURERS, a.cpuManufacturers, b.cpuManufacturers);
    assert fs[2] == ListTree(eq, EXCLUDED_INSTANCE_TYPES, a.excludedInstanceTypes, b.excludedInstanceTypes);
    assert fs[3] == ListTree(eq, INSTANCE_GENERATIONS, a.instanceGenerations, b.instanceGenerations);
    assert fs[4] == PointerTree(LOCAL_STORAGE, a.localStorage, b.localStorage);
    assert fs[5] == ListTree(eq, LOCAL_STORAGE_TYPES, a.localStorageTypes, b.localStorageTypes);
    assert fs[6] == PointerTree(MAX_SPOT_PRICE_AS_PERCENTAGE_OF_OPTIMAL_ON_DEMAND_PRICE, a.maxSpotPricePercentage,
                                b.maxSpotPricePercentage);
    assert fs[7] == RangeTree(MEMORY_GIB_PER_VCPU, a.memoryGiBPerVCpu, b.memoryGiBPerVCpu);
    FloatRangePaths(eq, MEMORY_GIB_PER_VCPU, a.memoryGiBPerVCpu, b.memoryGiBPerVCpu, q[1..]);
  }

  lemma CapacityPaths(eq: SliceEq, a: InstanceRequirements, b: InstanceRequirements, q: Path)
    requires q != []
    ensures DiffersAt(CapacityFields(eq, a, b), q) <==> Differ(eq, CapacityAt(a, q), CapacityAt(b, q))
  {
    hide RangeTree, RangeAt, FloatRangeAt;
    OneField(q);
    var fs := CapacityFields(eq, a, b);
    assert fs[0] == RangeTree(MEMORY_MIB, a.memoryMiB, b.memoryMiB);
    RangePaths(eq, MEMORY_MIB, a.memoryMiB, b.memoryMiB, q[1..]);
    assert fs[1] == RangeTree(NETWORK_BANDWIDTH_GBPS, a.networkBandwidthGbps, b.networkBandwidthGbps);
    FloatRangePaths(eq, NETWORK_BANDWIDTH_GBPS, a.networkBandwidthGbps, b.networkBandwidthGbps, q[1..]);
    assert fs[2] == RangeTree(NETWORK_INTERFACE_COUNT, a.networkInterfaceCount, b.networkInterfaceCount);
    RangePaths(eq, NETWORK_INTERFACE_COUNT, a.networkInterfaceCount, b.networkInterfaceCount, q[1..]);
    assert fs[3] == PointerTree(ON_DEMAND_MAX_PRICE_PERCENTAGE_OVER_LOWEST_PRICE, a.onDemandMaxPricePercentage,
                                b.onDemandMaxPricePercentage);
    assert fs[4] == PointerTree(REQUIRE_HIBERNATE_SUPPORT, a.requireHibernateSupport, b.requireHibernateSupport);
    assert fs[5] == PointerTree(SPOT_MAX_PRICE_PERCENTAGE_OVER_LOWEST_PRICE, a.spotMaxPricePercentage,
                                b.spotMaxPricePercentage);
    assert fs[6] == RangeTree(TOTAL_LOCAL_STORAGE_GB, a.totalLocalStorageGB, b.totalLocalStorageGB);
    FloatRangePaths(eq, TOTAL_LOCAL_STORAGE_GB, a.totalLocalStorageGB, b.totalLocalStorageGB, q[1..]);
    assert fs[7] == RangeTree(VCPU_COUNT, a.vCpuCount, b.vCpuCount);
    RangePaths(eq, VCPU_COUNT, a.vCpuCount, b.vCpuCount, q[1..]);
  }

  lemma PathsOfConcat(fs: seq<Tree>, gs: seq<Tree>, q: Path)
    ensures DiffersAt(fs + gs, q) <==> DiffersAt(fs, q) || DiffersAt(gs, q)
  {
    hide FieldDiffersAt;
    var hs := fs + gs;
    assert forall i :: 0 <= i < |fs| ==> hs[i] == fs[i];
    assert forall i :: 0 <= i < |gs| ==> hs[|fs| + i] == gs[i];
    if DiffersAt(hs, q) {
      var i :| 0 <= i < |hs| && hs[i].name == q[0] && FieldDiffersAt(hs[i], q[1..]);
      assert i >= |fs| ==> hs[i] == gs[i - |fs|];
    }
  }

  lemma OtherGroups(r: InstanceRequirements, q: Path)
    requires q != []
    ensures q[0] > BASELINE_EBS_BANDWIDTH_MBPS ==> AcceleratorAt(r, q) == Nowhere
    ensures !(BASELINE_EBS_BANDWIDTH_MBPS < q[0] <= MEMORY_GIB_PER_VCPU) ==> InstanceAt(r, q) == Nowhere
    ensures q[0] <= MEMORY_GIB_PER_VCPU ==> CapacityAt(r, q) == Nowhere
  {
  }

  lemma RequirementsPaths(eq: SliceEq, a: Option<InstanceRequirements>, b: Option<InstanceRequirements>, q: Path)
    ensures FieldDiffersAt(RequirementsTree(eq, a, b), q) <==> Differ(eq, RequirementsAt(a, q), RequirementsAt(b, q))
    ensures RequirementsTree(eq, a, b).name == INSTANCE_REQUIREMENTS
  {
    NoFields(q);
    if q != [] && a.Some? && b.Some? {
      var x, y := a.value, b.value;
      OtherGroups(x, q);
      OtherGroups(y, q);
      AcceleratorPaths(eq, x, y, q);
      InstancePaths(eq, x, y, q);
      CapacityPaths(eq, x, y, q);
      hide AcceleratorFields, InstanceFields, CapacityFields, DiffersAt, AcceleratorAt, InstanceAt, CapacityAt;
      PathsOfConcat(InstanceFields(eq, x, y), CapacityFields(eq, x, y), q);
      PathsOfConcat(AcceleratorFields(eq, x, y), InstanceFields(eq, x, y) + CapacityFields(eq, x, y), q);
    }
  }

  lemma ReservationsPaths(eq: SliceEq, a: Option<CapacityReservations>, b: Option<CapacityReservations>, q: Path)
    ensures FieldDiffersAt(ReservationsTree(a, b), q) <==> Differ(eq, ReservationsAt(a, q), ReservationsAt(b, q))
    ensures ReservationsTree(a, b).name == CAPACITY_RESERVATIONS
  {
    NoFields(q);
    if q != [] && a.Some? && b.Some? {
      var x, y := a.value, b.value;
      OneField(q);
      var fs := ReservationsFields(x, y);
      assert fs[0] == PointerTree(RESERVATION_GROUP_ARN, x.reservationGroupArn, y.reservationGroupArn);
      assert fs[1] == PointerTree(RESERVATION_PREFERENCE, x.reservationPreference, y.reservationPreference);
      assert DiffersAt(fs, q) <==> Differ(eq, ReservationsAt(a, q), ReservationsAt(b, q));
    }
  }

  lemma LocalStoragePaths(eq: SliceEq, a: Option<LocalStorageConfiguration>, b: Option<LocalStorageConfiguration>,
                          q: Path)
    ensures FieldDiffersAt(LocalStorageTree(a, b), q) <==> Differ(eq, LocalStorageAt(a, q), LocalStorageAt(b, q))
    ensures LocalStorageTree(a, b).name == LOCAL_STORAGE_CONFIGURATION
  {
    NoFields(q);
    if q != [] && a.Some? && b.Some? {
      var x, y := a.value, b.value;
      OneField(q);
      var fs := LocalStorageFields(x, y);
      assert fs[0] == PointerTree(USE_LOCAL_STORAGE, x.useLocalStorage, y.useLocalStorage);
      assert DiffersAt(fs, q) <==> Differ(eq, LocalStorageAt(a, q), LocalStorageAt(b, q));
    }
  }

  lemma NetworkPaths(eq: SliceEq, a: Option<NetworkConfiguration>, b: Option<NetworkConfiguration>, q: Path)
    ensures FieldDiffersAt(NetworkTree(eq, a, b), q) <==> Differ(eq, NetworkAt(a, q), NetworkAt(b, q))
    ensures NetworkTree(eq, a, b).name == NETWORK_CONFIGURATION
  {
    NoFields(q);
    if q != [] && a.Some? && b.Some? {
      var x, y := a.value, b.value;
      OneField(q);
      var fs := NetworkFields(eq, x, y);
      assert fs[0] == ListTree(eq, SECURITY_GROUPS, x.securityGroups, y.securityGroups);
      assert fs[1] == ListTree(eq, SUBNETS, x.subnets, y.subnets);
      assert DiffersAt(fs, q) <==> Differ(eq, NetworkAt(a, q), NetworkAt(b, q));
    }
  }

  lemma StoragePaths(eq: SliceEq, a: Option<StorageConfiguration>, b: Option<StorageConfiguration>, q: Path)
    ensures FieldDiffersAt(StorageTree(a, b), q) <==> Differ(eq, StorageAt(a, q), StorageAt(b, q))
    ensures StorageTree(a, b).name == STORAGE_CONFIGURATION
  {
    NoFields(q);
    if q != [] && a.Some? && b.Some? {
      var x, y := a.value, b.value;
      OneField(q);
      var fs := StorageFields(x, y);
      assert fs[0] == PointerTree(STORAGE_SIZE_GIB, x.storageSizeGiB, y.storageSizeGiB);
      assert DiffersAt(fs, q) <==> Differ(eq, StorageAt(a, q), StorageAt(b, q));
    }
  }

  lemma TemplatePaths(eq: SliceEq, a: Option<InstanceLaunchTemplate>, b: Option<InstanceLaunchTemplate>, q: Path)
    ensures FieldDiffersAt(TemplateTree(eq, a, b), q) <==> Differ(eq, TemplateAt(a, q), TemplateAt(b, q))
    ensures TemplateTree(eq, a, b).name == INSTANCE_LAUNCH_TEMPLATE
  {
    hide ReservationsTree, ReservationsAt, RequirementsTree, RequirementsAt, LocalStorageTree, LocalStorageAt;
    hide NetworkTree, NetworkAt, StorageTree, StorageAt;
    NoFields(q);
    if q != [] && a.Some? && b.Some? {
      var x, y := a.value, b.value;
      OneField(q);
      var fs := TemplateFields(eq, x, y);
      assert fs[0] == PointerTree(CAPACITY_OPTION_TYPE, x.capacityOptionType, y.capacityOptionType);
      assert fs[1] == ReservationsTree(x.capacityReservations, y.capacityReservations);
      ReservationsPaths(eq, x.capacityReservations, y.capacityReservations, q[1..]);
      assert fs[2] == PointerTree(EC2_INSTANCE_PROFILE_ARN, x.profileArn, y.profileArn);
      assert fs[3] == PointerTree(FIPS_ENABLED, x.fipsEnabled, y.fipsEnabled);
      assert fs[4] == PointerTree(INSTANCE_METADATA_TAGS_PROPAGATION, x.tagsPropagation, y.tagsPropagation);
      assert fs[5] == RequirementsTree(eq, x.requirements, y.requirements);
      RequirementsPaths(eq, x.requirements, y.requirements, q[1..]);
      assert fs[6] == LocalStorageTree(x.localStorage, y.localStorage);
      LocalStoragePaths(eq, x.localStorage, y.localStorage, q[1..]);
      assert fs[7] == PointerTree(MONITORING, x.monitoring, y.monitoring);
      assert fs[8] == NetworkTree(eq, x.network, y.network);
      NetworkPaths(eq, x.network, y.network, q[1..]);
      assert fs[9] == StorageTree(x.storage, y.storage);
      StoragePaths(eq, x.storage, y.storage, q[1..]);
      assert DiffersAt(fs, q) <==> Differ(eq, TemplateAt(a, q), TemplateAt(b, q));
    }
  }

  lemma AutoRepairPaths(eq: SliceEq, a: Option<AutoRepairConfiguration>, b: Option<AutoRepairConfiguration>, q: Path)
    ensures FieldDiffersAt(AutoRepairTree(a, b), q) <==> Differ(eq, AutoRepairAt(a, q), AutoRepairAt(b, q))
    ensures AutoRepairTree(a, b).name == AUTO_REPAIR_CONFIGURATION
  {
    NoFields(q);
    if q != [] && a.Some? && b.Some? {
      var x, y := a.value, b.value;
      OneField(q);
      var fs := AutoRepairFields(x, y);
      assert fs[0] == PointerTree(ACTIONS_STATUS, x.actionsStatus, y.actionsStatus);
      assert DiffersAt(fs, q) <==> Differ(eq, AutoRepairAt(a, q), AutoRepairAt(b, q));
    }
  }

  lemma OptimizationPaths(eq: SliceEq, a: Option<InfrastructureOptimization>, b: Option<InfrastructureOptimization>,
                          q: Path)
    ensures FieldDiffersAt(OptimizationTree(a, b), q) <==> Differ(eq, OptimizationAt(a, q), OptimizationAt(b, q))
    ensures OptimizationTree(a, b).name == INFRASTRUCTURE_OPTIMIZATION
  {
    NoFields(q);
    if q != [] && a.Some? && b.Some? {
      var x, y := a.value, b.value;
      OneField(q);
      var fs := OptimizationFields(x, y);
      assert fs[0] == PointerTree(SCALE_IN_AFTER, x.scaleInAfter, y.scaleInAfter);
      assert DiffersAt(fs, q) <==> Differ(eq, OptimizationAt(a, q), OptimizationAt(b, q));
    }
  }

  lemma MipPaths(eq: SliceEq, a: Option<ManagedInstancesProvider>, b: Option<ManagedInstancesProvider>, q: Path)
    ensures FieldDiffersAt(MipTree(eq, a, b), q) <==> Differ(eq, MipAt(a, q), MipAt(b, q))
    ensures MipTree(eq, a, b).name == MANAGED_INSTANCES_PROVIDER
  {
    hide AutoRepairTree, AutoRepairAt, OptimizationTree, OptimizationAt, TemplateTree, TemplateAt;
    NoFields(q);
    if q != [] && a.Some? && b.Some? {
      var x, y := a.value, b.value;
      OneField(q);
      var fs := MipFields(eq, x, y);
      assert fs[0] == AutoRepairTree(x.autoRepair, y.autoRepair);
      AutoRepairPaths(eq, x.autoRepair, y.autoRepair, q[1..]);
      assert fs[1] == OptimizationTree(x.optimization, y.optimization);
      OptimizationPaths(eq, x.optimization, y.optimization, q[1..]);
      assert fs[2] == PointerTree(INFRASTRUCTURE_ROLE_ARN, x.roleArn, y.roleArn);
      assert fs[3] == TemplateTree(eq, x.template, y.template);
      TemplatePaths(eq, x.template, y.template, q[1..]);
      assert fs[4] == PointerTree(PROPAGATE_TAGS, x.propagateTags, y.propagateTags);
      assert DiffersAt(fs, q) <==> Differ(eq, MipAt(a, q), MipAt(b, q));
    }
  }

  lemma SpecPaths(eq: SliceEq, a: Spec, b: Spec, q: Path)
    requires NoNil(a.tags) && NoNil(b.tags)
    ensures DiffersAt(SpecFields(eq, a, b), q) <==> Differ(eq, SpecAt(a, q), SpecAt(b, q))
  {
    hide AsgpTree, AsgpAt, MipTree, MipAt;
    if q != [] {
      OneField(q);
      var fs := SpecFields(eq, a, b);
      assert fs[0] == AsgpTree(a.asgp, b.asgp);
      AsgpPaths(eq, a.asgp, b.asgp, q[1..]);
      assert fs[1] == PointerTree(CLUSTER, a.cluster, b.cluster);
      assert fs[2] == PointerTree(CLUSTER_REF, a.clusterRef, b.clusterRef);
      assert fs[3] == MipTree(eq, a.mip, b.mip);
      MipPaths(eq, a.mip, b.mip, q[1..]);
      assert fs[4] == PointerTree(NAME, a.name, b.name);
      assert fs[5] == Leaf(TAGS, TagsDiffer(TagsOf(a.tags), TagsOf(b.tags)));
    }
  }

  /** A path is reported exactly when every struct on the way to it is there in both specs and
      what it leads to is not the same; for a struct, exactly when one of the two is nil. */
  lemma ReportedIffDiffer(eq: SliceEq, a: Spec, b: Spec, q: Path)
    requires NoNil(a.tags) && NoNil(b.tags)
    ensures [SPEC] + q in DeltaOf(eq, Some(a), Some(b)) <==> Differ(eq, SpecAt(a, q), SpecAt(b, q))
  {
    ReportedIffDiffers([SPEC], SpecFields(eq, a, b), q);
    SpecPaths(eq, a, b, q);
  }

  /** And every reported path is below Spec, but for the empty one, which is all that is reported
      when only one of the two is there. */
  lemma ReportedBelowSpec(eq: SliceEq, a: Option<Spec>, b: Option<Spec>, p: Path)
    requires a.Some? || b.Some?
    requires a.Some? && b.Some? ==> NoNil(a.value.tags) && NoNil(b.value.tags)
    ensures p in DeltaOf(eq, a, b)
       <==> if a.None? || b.None? then p == []
            else p != [] && p[0] == SPEC && Differ(eq, SpecAt(a.value, p[1..]), SpecAt(b.value, p[1..]))
  {
    if a.Some? && b.Some? {
      FieldsAreBelow([SPEC], SpecFields(eq, a.value, b.value));
      if p != [] && p[0] == SPEC {
        assert p == [SPEC] + p[1..];
        ReportedIffDiffer(eq, a.value, b.value, p[1..]);
      }
    }
  }

  /** Spec.Tags is reported exactly when the tag maps differ. */
  lemma TagsReportedIff(eq: SliceEq, a: Spec, b: Spec)
    requires NoNil(a.tags) && NoNil(b.tags)
    ensures [SPEC, TAGS] in DeltaOf(eq, Some(a), Some(b)) <==> AckTags(TagsOf(a.tags)) != AckTags(TagsOf(b.tags))
  {
    assert [SPEC, TAGS] == [SPEC] + [TAGS];
    ReportedIffDiffer(eq, a, b, [TAGS]);
  }

  /** The security groups, four structs down, are reported exactly when all four are there on
      both sides and the lists differ in length, or are not empty and not the same to
      SliceStringPEqual. */
  lemma SecurityGroupsReportedIff(eq: SliceEq, a: Spec, b: Spec)
    requires NoNil(a.tags) && NoNil(b.tags)
    ensures [SPEC, MANAGED_INSTANCES_PROVIDER, INSTANCE_LAUNCH_TEMPLATE, NETWORK_CONFIGURATION, SECURITY_GROUPS]
              in DeltaOf(eq, Some(a), Some(b))
       <==> NetworkOf(a).Some? && NetworkOf(b).Some?
            && var x, y := Elements(NetworkOf(a).value.securityGroups), Elements(NetworkOf(b).value.securityGroups);
               |x| != |y| || (x != [] && !eq(x, y))
  {
    var q := [MANAGED_INSTANCES_PROVIDER, INSTANCE_LAUNCH_TEMPLATE, NETWORK_CONFIGURATION, SECURITY_GROUPS];
    assert [SPEC] + q
        == [SPEC, MANAGED_INSTANCES_PROVIDER, INSTANCE_LAUNCH_TEMPLATE, NETWORK_CONFIGURATION, SECURITY_GROUPS];
    ReportedIffDiffer(eq, a, b, q);
    assert q[1..][1..][1..] == [SECURITY_GROUPS];
  }
}
