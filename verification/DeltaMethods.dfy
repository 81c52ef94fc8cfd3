/** newResourceDelta of pkg/resource/capacity_provider/delta.go as it is written: one
    accumulator, to which each comparison adds a path, along the fields in source order.
    Every method is proved to add what Delta.dfy says. */
module DeltaMethods {
  import opened ApiTypes
  import opened Delta
  import opened Tags

  /** The differences found so far. */
  class Differences {
    var paths: seq<Path>

    constructor ()
      ensures paths == []
    {
      paths := [];
    }

    method Add(p: Path)
      modifies this
      ensures paths == old(paths) + [p]
    {
      paths := paths + [p];
    }
  }

  predicate HasNilDifference<T>(a: Option<T>, b: Option<T>) {
    (a.None? && b.Some?) || (a.Some? && b.None?)
  }

  lemma OneMoreField(before: seq<Path>, p: Path, fs: seq<Tree>, k: nat)
    requires k < |fs|
    ensures before + DiffFields(p, fs[..k]) + Diff(p, fs[k]) == before + DiffFields(p, fs[..k + 1])
  {
    assert fs[..k + 1][..k] == fs[..k];
  }

  lemma NoFieldsYet(before: seq<Path>, p: Path, fs: seq<Tree>)
    ensures before + DiffFields(p, fs[..0]) == before
  {
  }

  lemma {:induction false} DiffFieldsOfConcat(p: Path, a: seq<Tree>, b: seq<Tree>)
    ensures DiffFields(p, a + b) == DiffFields(p, a) + DiffFields(p, b)
  {
    if b == [] {
      assert a + b == a;
    } else {
      var init := b[..|b| - 1];
      assert (a + b)[..|a + b| - 1] == a + init;
      DiffFieldsOfConcat(p, a, init);
    }
  }

  // The comparisons of one field: fs is the list of comparisons of the struct, of which the
  // first k are in the accumulator after what was there before.

  method ComparePointer<T(==)>(delta: Differences, ghost before: seq<Path>, p: Path, ghost fs: seq<Tree>, ghost k: nat,
                               name: Field, a: Option<T>, b: Option<T>)
    requires k < |fs| && fs[k] == PointerTree(name, a, b)
    requires delta.paths == before + DiffFields(p, fs[..k])
    modifies delta
    ensures delta.paths == before + DiffFields(p, fs[..k + 1])
  {
    OneMoreField(before, p, fs, k);
    if HasNilDifference(a, b) {
      delta.Add(p + [name]);
    } else if a.Some? && b.Some? {
      if a.value != b.value {
        delta.Add(p + [name]);
      }
    }
  }

  method CompareList(eq: SliceEq, delta: Differences, ghost before: seq<Path>, p: Path, ghost fs: seq<Tree>,
                     ghost k: nat, name: Field, a: StringPList, b: StringPList)
    requires k < |fs| && fs[k] == ListTree(eq, name, a, b)
    requires delta.paths == before + DiffFields(p, fs[..k])
    modifies delta
    ensures delta.paths == before + DiffFields(p, fs[..k + 1])
  {
    OneMoreField(before, p, fs, k);
    if |Elements(a)| != |Elements(b)| {
      delta.Add(p + [name]);
    } else if |Elements(a)| > 0 {
      if !eq(Elements(a), Elements(b)) {
        delta.Add(p + [name]);
      }
    }
  }

  method CompareRange<T(==)>(delta: Differences, ghost before: seq<Path>, p: Path, ghost fs: seq<Tree>, ghost k: nat,
                             name: Field, a: Option<Range<T>>, b: Option<Range<T>>)
    requires k < |fs| && fs[k] == RangeTree(name, a, b)
    requires delta.paths == before + DiffFields(p, fs[..k])
    modifies delta
    ensures delta.paths == before + DiffFields(p, fs[..k + 1])
  {
    OneMoreField(before, p, fs, k);
    if HasNilDifference(a, b) {
      delta.Add(p + [name]);
    } else if a.Some? && b.Some? {
      ghost var start := delta.paths;
      ghost var gs := RangeTree(name, a, b).fields;
      ComparePointer(delta, start, p + [name], gs, 0, MAX, a.value.max, b.value.max);
      ComparePointer(delta, start, p + [name], gs, 1, MIN, a.value.min, b.value.min);
      assert gs[..2] == gs;
    }
  }

  method CompareScaling(delta: Differences, p: Path, a: Option<ManagedScaling>, b: Option<ManagedScaling>)
    modifies delta
    ensures delta.paths == old(delta.paths) + Diff(p, ScalingTree(a, b))
  {
    if HasNilDifference(a, b) {
      delta.Add(p + [MANAGED_SCALING]);
    } else if a.Some? && b.Some? {
      var x, y := a.value, b.value;
      ghost var start := delta.paths;
      ghost var fs := ScalingFields(x, y);
      ComparePointer(delta, start, p + [MANAGED_SCALING], fs, 0, INSTANCE_WARMUP_PERIOD, x.instanceWarmupPeriod,
                     y.instanceWarmupPeriod);
      ComparePointer(delta, start, p + [MANAGED_SCALING], fs, 1, MAXIMUM_SCALING_STEP_SIZE, x.maximumScalingStepSize,
                     y.maximumScalingStepSize);
      ComparePointer(delta, start, p + [MANAGED_SCALING], fs, 2, MINIMUM_SCALING_STEP_SIZE, x.minimumScalingStepSize,
                     y.minimumScalingStepSize);
      ComparePointer(delta, start, p + [MANAGED_SCALING], fs, 3, STATUS, x.status, y.status);
      ComparePointer(delta, start, p + [MANAGED_SCALING], fs, 4, TARGET_CAPACITY, x.targetCapacity, y.targetCapacity);
      assert fs[..5] == fs;
    }
  }

  method CompareAsgp(delta: Differences, p: Path, a: Option<AutoScalingGroupProvider>,
                     b: Option<AutoScalingGroupProvider>)
    modifies delta
    ensures delta.paths == old(delta.paths) + Diff(p, AsgpTree(a, b))
  {
    if HasNilDifference(a, b) {
      delta.Add(p + [AUTO_SCALING_GROUP_PROVIDER]);
    } else if a.Some? && b.Some? {
      var x, y := a.value, b.value;
      ghost var start := delta.paths;
      ghost var fs := AsgpFields(x, y);
      hide ScalingTree;
      ComparePointer(delta, start, p + [AUTO_SCALING_GROUP_PROVIDER], fs, 0, AUTO_SCALING_GROUP_ARN, x.arn, y.arn);
      ComparePointer(delta, start, p + [AUTO_SCALING_GROUP_PROVIDER], fs, 1, MANAGED_DRAINING, x.managedDraining,
                     y.managedDraining);
      OneMoreField(start, p + [AUTO_SCALING_GROUP_PROVIDER], fs, 2);
      CompareScaling(delta, p + [AUTO_SCALING_GROUP_PROVIDER], x.managedScaling, y.managedScaling);
      ComparePointer(delta, start, p + [AUTO_SCALING_GROUP_PROVIDER], fs, 3, MANAGED_TERMINATION_PROTECTION,
                     x.managedTerminationProtection, y.managedTerminationProtection);
      assert fs[..4] == fs;
    }
  }

  method CompareAcceleratorFields(eq: SliceEq, delta: Differences, p: Path, x: InstanceRequirements,
                                  y: InstanceRequirements)
    modifies delta
    ensures delta.paths == old(delta.paths) + DiffFields(p, AcceleratorFields(eq, x, y))
  {
    hide PointerTree, ListTree, RangeTree, Diff, DiffFields;
    ghost var start := delta.paths;
    ghost var fs := AcceleratorFields(eq, x, y);
    NoFieldsYet(start, p, fs);
    CompareRange(delta, start, p, fs, 0, ACCELERATOR_COUNT, x.acceleratorCount, y.acceleratorCount);
    CompareList(eq, delta, start, p, fs, 1, ACCELERATOR_MANUFACTURERS, x.acceleratorManufacturers,
                y.acceleratorManufacturers);
    CompareList(eq, delta, start, p, fs, 2, ACCELERATOR_NAMES, x.acceleratorNames, y.acceleratorNames);
    CompareRange(delta, start, p, fs, 3, ACCELERATOR_TOTAL_MEMORY_MIB, x.acceleratorTotalMemoryMiB,
                 y.acceleratorTotalMemoryMiB);
    CompareList(eq, delta, start, p, fs, 4, ACCELERATOR_TYPES, x.acceleratorTypes, y.acceleratorTypes);
    CompareList(eq, delta, start, p, fs, 5, ALLOWED_INSTANCE_TYPES, x.allowedInstanceTypes, y.allowedInstanceTypes);
    ComparePointer(delta, start, p, fs, 6, BARE_METAL, x.bareMetal, y.bareMetal);
    CompareRange(delta, start, p, fs, 7, BASELINE_EBS_BANDWIDTH_MBPS, x.baselineEbsBandwidthMbps,
                 y.baselineEbsBandwidthMbps);
    assert fs[..8] == fs;
  }

  method CompareInstanceFields(eq: SliceEq, delta: Differences, p: Path, x: InstanceRequirements,
                               y: InstanceRequirements)
    modifies delta
    ensures delta.paths == old(delta.paths) + DiffFields(p, InstanceFields(eq, x, y))
  {
    hide PointerTree, ListTree, RangeTree, Diff, DiffFields;
    ghost var start := delta.paths;
    ghost var fs := InstanceFields(eq, x, y);
    NoFieldsYet(start, p, fs);
    ComparePointer(delta, start, p, fs, 0, BURSTABLE_PERFORMANCE, x.burstablePerformance, y.burstablePerformance);
    CompareList(eq, delta, start, p, fs, 1, CPU_MANUFACTURERS, x.cpuManufacturers, y.cpuManufacturers);
    CompareList(eq, delta, start, p, fs, 2, EXCLUDED_INSTANCE_TYPES, x.excludedInstanceTypes, y.excludedInstanceTypes);
    CompareList(eq, delta, start, p, fs, 3, INSTANCE_GENERATIONS, x.instanceGenerations, y.instanceGenerations);
    ComparePointer(delta, start, p, fs, 4, LOCAL_STORAGE, x.localStorage, y.localStorage);
    CompareList(eq, delta, start, p, fs, 5, LOCAL_STORAGE_TYPES, x.localStorageTypes, y.localStorageTypes);
    ComparePointer(delta, start, p, fs, 6, MAX_SPOT_PRICE_AS_PERCENTAGE_OF_OPTIMAL_ON_DEMAND_PRICE,
                   x.maxSpotPricePercentage, y.maxSpotPricePercentage);
    CompareRange(delta, start, p, fs, 7, MEMORY_GIB_PER_VCPU, x.memoryGiBPerVCpu, y.memoryGiBPerVCpu);
    assert fs[..8] == fs;
  }

  method CompareCapacityFields(eq: SliceEq, delta: Differences, p: Path, x: InstanceRequirements,
                               y: InstanceRequirements)
    modifies delta
    ensures delta.paths == old(delta.paths) + DiffFields(p, CapacityFields(eq, x, y))
  {
    hide PointerTree, ListTree, RangeTree, Diff, DiffFields;
    ghost var start := delta.paths;
    ghost var fs := CapacityFields(eq, x, y);
    NoFieldsYet(start, p, fs);
    CompareRange(delta, start, p, fs, 0, MEMORY_MIB, x.memoryMiB, y.memoryMiB);
    CompareRange(delta, start, p, fs, 1, NETWORK_BANDWIDTH_GBPS, x.networkBandwidthGbps, y.networkBandwidthGbps);
    CompareRange(delta, start, p, fs, 2, NETWORK_INTERFACE_COUNT, x.networkInterfaceCount, y.networkInterfaceCount);
    ComparePointer(delta, start, p, fs, 3, ON_DEMAND_MAX_PRICE_PERCENTAGE_OVER_LOWEST_PRICE,
                   x.onDemandMaxPricePercentage, y.onDemandMaxPricePercentage);
    ComparePointer(delta, start, p, fs, 4, REQUIRE_HIBERNATE_SUPPORT, x.requireHibernateSupport,
                   y.requireHibernateSupport);
    ComparePointer(delta, start, p, fs, 5, SPOT_MAX_PRICE_PERCENTAGE_OVER_LOWEST_PRICE, x.spotMaxPricePercentage,
                   y.spotMaxPricePercentage);
    CompareRange(delta, start, p, fs, 6, TOTAL_LOCAL_STORAGE_GB, x.totalLocalStorageGB, y.totalLocalStorageGB);
    CompareRange(delta, start, p, fs, 7, VCPU_COUNT, x.vCpuCount, y.vCpuCount);
    assert fs[..8] == fs;
  }

  method CompareRequirements(eq: SliceEq, delta: Differences, p: Path, a: Option<InstanceRequirements>,
                             b: Option<InstanceRequirements>)
    modifies delta
    ensures delta.paths == old(delta.paths) + Diff(p, RequirementsTree(eq, a, b))
  {
    if HasNilDifference(a, b) {
      delta.Add(p + [INSTANCE_REQUIREMENTS]);
    } else if a.Some? && b.Some? {
      var x, y := a.value, b.value;
      ghost var f1, f2, f3 := AcceleratorFields(eq, x, y), InstanceFields(eq, x, y), CapacityFields(eq, x, y);
      DiffFieldsOfConcat(p + [INSTANCE_REQUIREMENTS], f2, f3);
      DiffFieldsOfConcat(p + [INSTANCE_REQUIREMENTS], f1, f2 + f3);
      hide AcceleratorFields, InstanceFields, CapacityFields, Diff, DiffFields;
      CompareAcceleratorFields(eq, delta, p + [INSTANCE_REQUIREMENTS], x, y);
      CompareInstanceFields(eq, delta, p + [INSTANCE_REQUIREMENTS], x, y);
      CompareCapacityFields(eq, delta, p + [INSTANCE_REQUIREMENTS], x, y);
    }
  }

  method CompareReservations(delta: Differences, p: Path, a: Option<CapacityReservations>,
                             b: Option<CapacityReservations>)
    modifies delta
    ensures delta.paths == old(delta.paths) + Diff(p, ReservationsTree(a, b))
  {
    if HasNilDifference(a, b) {
      delta.Add(p + [CAPACITY_RESERVATIONS]);
    } else if a.Some? && b.Some? {
      var x, y := a.value, b.value;
      ghost var start := delta.paths;
      ghost var fs := ReservationsFields(x, y);
      ComparePointer(delta, start, p + [CAPACITY_RESERVATIONS], fs, 0, RESERVATION_GROUP_ARN, x.reservationGroupArn,
                     y.reservationGroupArn);
      ComparePointer(delta, start, p + [CAPACITY_RESERVATIONS], fs, 1, RESERVATION_PREFERENCE,
                     x.reservationPreference, y.reservationPreference);
      assert fs[..2] == fs;
    }
  }

  method CompareLocalStorage(delta: Differences, p: Path, a: Option<LocalStorageConfiguration>,
                             b: Option<LocalStorageConfiguration>)
    modifies delta
    ensures delta.paths == old(delta.paths) + Diff(p, LocalStorageTree(a, b))
  {
    if HasNilDifference(a, b) {
      delta.Add(p + [LOCAL_STORAGE_CONFIGURATION]);
    } else if a.Some? && b.Some? {
      var x, y := a.value, b.value;
      ghost var start := delta.paths;
      ghost var fs := LocalStorageFields(x, y);
      ComparePointer(delta, start, p + [LOCAL_STORAGE_CONFIGURATION], fs, 0, USE_LOCAL_STORAGE, x.useLocalStorage,
                     y.useLocalStorage);
      assert fs[..1] == fs;
    }
  }

  method CompareNetwork(eq: SliceEq, delta: Differences, p: Path, a: Option<NetworkConfiguration>,
                        b: Option<NetworkConfiguration>)
    modifies delta
    ensures delta.paths == old(delta.paths) + Diff(p, NetworkTree(eq, a, b))
  {
    if HasNilDifference(a, b) {
      delta.Add(p + [NETWORK_CONFIGURATION]);
    } else if a.Some? && b.Some? {
      var x, y := a.value, b.value;
      ghost var start := delta.paths;
      ghost var fs := NetworkFields(eq, x, y);
      CompareList(eq, delta, start, p + [NETWORK_CONFIGURATION], fs, 0, SECURITY_GROUPS, x.securityGroups,
                  y.securityGroups);
      CompareList(eq, delta, start, p + [NETWORK_CONFIGURATION], fs, 1, SUBNETS, x.subnets, y.subnets);
      assert fs[..2] == fs;
    }
  }

  method CompareStorage(delta: Differences, p: Path, a: Option<StorageConfiguration>, b: Option<StorageConfiguration>)
    modifies delta
    ensures delta.paths == old(delta.paths) + Diff(p, StorageTree(a, b))
  {
    if HasNilDifference(a, b) {
      delta.Add(p + [STORAGE_CONFIGURATION]);
    } else if a.Some? && b.Some? {
      var x, y := a.value, b.value;
      ghost var start := delta.paths;
      ghost var fs := StorageFields(x, y);
      ComparePointer(delta, start, p + [STORAGE_CONFIGURATION], fs, 0, STORAGE_SIZE_GIB, x.storageSizeGiB,
                     y.storageSizeGiB);
      assert fs[..1] == fs;
    }
  }

  method CompareTemplateFields(eq: SliceEq, delta: Differences, p: Path, x: InstanceLaunchTemplate,
                               y: InstanceLaunchTemplate)
    modifies delta
    ensures delta.paths == old(delta.paths) + DiffFields(p, TemplateFields(eq, x, y))
  {
    hide RequirementsTree, ReservationsTree, LocalStorageTree, NetworkTree, StorageTree, PointerTree;
    hide Diff, DiffFields;
    ghost var start := delta.paths;
    ghost var fs := TemplateFields(eq, x, y);
    NoFieldsYet(start, p, fs);
    ComparePointer(delta, start, p, fs, 0, CAPACITY_OPTION_TYPE, x.capacityOptionType, y.capacityOptionType);
    OneMoreField(start, p, fs, 1);
    CompareReservations(delta, p, x.capacityReservations, y.capacityReservations);
    ComparePointer(delta, start, p, fs, 2, EC2_INSTANCE_PROFILE_ARN, x.profileArn, y.profileArn);
    ComparePointer(delta, start, p, fs, 3, FIPS_ENABLED, x.fipsEnabled, y.fipsEnabled);
    ComparePointer(delta, start, p, fs, 4, INSTANCE_METADATA_TAGS_PROPAGATION, x.tagsPropagation, y.tagsPropagation);
    OneMoreField(start, p, fs, 5);
    CompareRequirements(eq, delta, p, x.requirements, y.requirements);
    OneMoreField(start, p, fs, 6);
    CompareLocalStorage(delta, p, x.localStorage, y.localStorage);
    ComparePointer(delta, start, p, fs, 7, MONITORING, x.monitoring, y.monitoring);
    OneMoreField(start, p, fs, 8);
    CompareNetwork(eq, delta, p, x.network, y.network);
    OneMoreField(start, p, fs, 9);
    CompareStorage(delta, p, x.storage, y.storage);
    assert fs[..10] == fs;
  }

  method CompareTemplate(eq: SliceEq, delta: Differences, p: Path, a: Option<InstanceLaunchTemplate>,
                         b: Option<InstanceLaunchTemplate>)
    modifies delta
    ensures delta.paths == old(delta.paths) + Diff(p, TemplateTree(eq, a, b))
  {
    if HasNilDifference(a, b) {
      delta.Add(p + [INSTANCE_LAUNCH_TEMPLATE]);
    } else if a.Some? && b.Some? {
      var x, y := a.value, b.value;
      hide TemplateFields;
      CompareTemplateFields(eq, delta, p + [INSTANCE_LAUNCH_TEMPLATE], x, y);
    }
  }

  method CompareAutoRepair(delta: Differences, p: Path, a: Option<AutoRepairConfiguration>,
                           b: Option<AutoRepairConfiguration>)
    modifies delta
    ensures delta.paths == old(delta.paths) + Diff(p, AutoRepairTree(a, b))
  {
    if HasNilDifference(a, b) {
      delta.Add(p + [AUTO_REPAIR_CONFIGURATION]);
    } else if a.Some? && b.Some? {
      var x, y := a.value, b.value;
      ghost var start := delta.paths;
      ghost var fs := AutoRepairFields(x, y);
      ComparePointer(delta, start, p + [AUTO_REPAIR_CONFIGURATION], fs, 0, ACTIONS_STATUS, x.actionsStatus,
                     y.actionsStatus);
      assert fs[..1] == fs;
    }
  }

  method CompareOptimization(delta: Differences, p: Path, a: Option<InfrastructureOptimization>,
                             b: Option<InfrastructureOptimization>)
    modifies delta
    ensures delta.paths == old(delta.paths) + Diff(p, OptimizationTree(a, b))
  {
    if HasNilDifference(a, b) {
      delta.Add(p + [INFRASTRUCTURE_OPTIMIZATION]);
    } else if a.Some? && b.Some? {
      var x, y := a.value, b.value;
      ghost var start := delta.paths;
      ghost var fs := OptimizationFields(x, y);
      ComparePointer(delta, start, p + [INFRASTRUCTURE_OPTIMIZATION], fs, 0, SCALE_IN_AFTER, x.scaleInAfter,
                     y.scaleInAfter);
      assert fs[..1] == fs;
    }
  }

  method CompareMip(eq: SliceEq, delta: Differences, p: Path, a: Option<ManagedInstancesProvider>,
                    b: Option<ManagedInstancesProvider>)
    modifies delta
    ensures delta.paths == old(delta.paths) + Diff(p, MipTree(eq, a, b))
  {
    if HasNilDifference(a, b) {
      delta.Add(p + [MANAGED_INSTANCES_PROVIDER]);
    } else if a.Some? && b.Some? {
      var x, y := a.value, b.value;
      ghost var start := delta.paths;
      ghost var fs := MipFields(eq, x, y);
      hide AutoRepairTree, OptimizationTree, TemplateTree;
      OneMoreField(start, p + [MANAGED_INSTANCES_PROVIDER], fs, 0);
      CompareAutoRepair(delta, p + [MANAGED_INSTANCES_PROVIDER], x.autoRepair, y.autoRepair);
      OneMoreField(start, p + [MANAGED_INSTANCES_PROVIDER], fs, 1);
      CompareOptimization(delta, p + [MANAGED_INSTANCES_PROVIDER], x.optimization, y.optimization);
      ComparePointer(delta, start, p + [MANAGED_INSTANCES_PROVIDER], fs, 2, INFRASTRUCTURE_ROLE_ARN, x.roleArn,
                     y.roleArn);
      OneMoreField(start, p + [MANAGED_INSTANCES_PROVIDER], fs, 3);
      CompareTemplate(eq, delta, p + [MANAGED_INSTANCES_PROVIDER], x.template, y.template);
      ComparePointer(delta, start, p + [MANAGED_INSTANCES_PROVIDER], fs, 4, PROPAGATE_TAGS, x.propagateTags,
                     y.propagateTags);
      assert fs[..5] == fs;
    }
  }

  method CompareTags(delta: Differences, ghost before: seq<Path>, ghost fs: seq<Tree>, ghost k: nat,
                     a: TagList, b: TagList)
    requires NoNil(a) && NoNil(b)
    requires k < |fs| && fs[k] == Leaf(TAGS, TagsDiffer(TagsOf(a), TagsOf(b)))
    requires delta.paths == before + DiffFields([SPEC], fs[..k])
    modifies delta
    ensures delta.paths == before + DiffFields([SPEC], fs[..k + 1])
  {
    OneMoreField(before, [SPEC], fs, k);
    assert [SPEC] + [TAGS] == [SPEC, TAGS];
    if AckTags(TagsOf(a)) != AckTags(TagsOf(b)) {
      delta.Add([SPEC, TAGS]);
    }
  }

  method NewResourceDelta(eq: SliceEq, a: Option<Spec>, b: Option<Spec>) returns (delta: Differences)
    requires a.Some? || b.Some?
    requires a.Some? && b.Some? ==> NoNil(a.value.tags) && NoNil(b.value.tags)
    ensures fresh(delta)
    ensures delta.paths == DeltaOf(eq, a, b)
  {
    hide AsgpTree, MipTree, PointerTree, AckTags, TagsOf, Diff, DiffFields;
    delta := new Differences();
    if (a.None? && b.Some?) || (a.Some? && b.None?) {
      delta.Add([]);
      return;
    }
    var x, y := a.value, b.value;
    ghost var start := delta.paths;
    ghost var fs := SpecFields(eq, x, y);
    NoFieldsYet(start, [SPEC], fs);
    OneMoreField(start, [SPEC], fs, 0);
    CompareAsgp(delta, [SPEC], x.asgp, y.asgp);
    ComparePointer(delta, start, [SPEC], fs, 1, CLUSTER, x.cluster, y.cluster);
    ComparePointer(delta, start, [SPEC], fs, 2, CLUSTER_REF, x.clusterRef, y.clusterRef);
    OneMoreField(start, [SPEC], fs, 3);
    CompareMip(eq, delta, [SPEC], x.mip, y.mip);
    ComparePointer(delta, start, [SPEC], fs, 4, NAME, x.name, y.name);
    CompareTags(delta, start, fs, 5, x.tags, y.tags);
    assert fs[..6] == fs;
  }
}
