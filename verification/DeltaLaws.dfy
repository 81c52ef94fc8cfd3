/** Laws of the delta: when it is empty, that it is symmetric, that no reported path is equal
    to or below another, and that restoring references leaves it alone. */
module DeltaLaws {
  import opened ApiTypes
  import opened Delta
  import opened Tags
  import opened References

  // ---- paths and trees ----

  lemma {:induction false} EmptyIffClean(p: Path, t: Tree)
    ensures Diff(p, t) == [] <==> Clean(t)
    decreases t, 0
  {
    if t.Struct? {
      FieldsEmptyIffClean(p + [t.name], t.fields);
    }
  }

  lemma {:induction false} FieldsEmptyIffClean(p: Path, fs: seq<Tree>)
    ensures DiffFields(p, fs) == [] <==> AllClean(fs)
    decreases fs, 0
  {
    if fs != [] {
      var init, last := fs[..|fs| - 1], fs[|fs| - 1];
      FieldsEmptyIffClean(p, init);
      EmptyIffClean(p, last);
      if AllClean(fs) {
        assert forall i :: 0 <= i < |init| ==> init[i] == fs[i];
      }
      if AllClean(init) && Clean(last) {
        forall i | 0 <= i < |fs|
          ensures Clean(fs[i])
        {
          assert i < |init| ==> init[i] == fs[i];
        }
      }
    }
  }

  lemma {:induction false} DiffIsBelow(p: Path, t: Tree)
    ensures forall q :: q in Diff(p, t) ==> p + [t.name] <= q
    decreases t, 0
  {
    if t.Struct? {
      FieldsAreBelow(p + [t.name], t.fields);
    }
  }

  lemma {:induction false} FieldsAreBelow(p: Path, fs: seq<Tree>)
    ensures forall q :: q in DiffFields(p, fs) ==>
              p < q && exists i :: 0 <= i < |fs| && q[|p|] == fs[i].name
    decreases fs, 0
  {
    if fs != [] {
      var init, last := fs[..|fs| - 1], fs[|fs| - 1];
      FieldsAreBelow(p, init);
      DiffIsBelow(p, last);
      forall q | q in DiffFields(p, fs)
        ensures p < q && exists i :: 0 <= i < |fs| && q[|p|] == fs[i].name
      {
        if q in DiffFields(p, init) {
          var i :| 0 <= i < |init| && q[|p|] == init[i].name;
          assert fs[i] == init[i];
        } else {
          assert q in Diff(p, last);
          assert (p + [last.name])[|p|] == last.name;
          assert q[|p|] == fs[|fs| - 1].name;
        }
      }
    }
  }

  /** Whether the comparison of a struct's fields finds a difference exactly at q, a path below
      the struct: at the first field itself, or below a field that is present on both sides. */
  ghost predicate DiffersAt(fs: seq<Tree>, q: Path)
    decreases |q|, 0
  {
    q != [] && exists i :: 0 <= i < |fs| && fs[i].name == q[0] && FieldDiffersAt(fs[i], q[1..])
  }

  ghost predicate FieldDiffersAt(t: Tree, q: Path)
    decreases |q|, 1
  {
    match t
    case Leaf(_, differs) => differs && q == []
    case Struct(_, nilDiffers, fields) => if q == [] then nilDiffers else !nilDiffers && DiffersAt(fields, q)
  }

  /** A path is reported exactly when there is a difference at it. */
  lemma {:induction false} ReportedIffDiffers(p: Path, fs: seq<Tree>, q: Path)
    ensures p + q in DiffFields(p, fs) <==> DiffersAt(fs, q)
    decreases fs, 0
  {
    if fs != [] {
      var init, last := fs[..|fs| - 1], fs[|fs| - 1];
      ReportedIffDiffers(p, init, q);
      if q == [] {
        FieldsAreBelow(p, fs);
      } else {
        FieldReportedIffDiffers(p, last, q);
        DiffersAtSplit(init, last, q);
        assert init + [last] == fs;
      }
    }
  }

  lemma DiffersAtSplit(init: seq<Tree>, last: Tree, q: Path)
    requires q != []
    ensures DiffersAt(init + [last], q)
       <==> DiffersAt(init, q) || (last.name == q[0] && FieldDiffersAt(last, q[1..]))
  {
    hide FieldDiffersAt;
    var fs := init + [last];
    if i :| 0 <= i < |fs| && fs[i].name == q[0] && FieldDiffersAt(fs[i], q[1..]) {
      assert i < |init| ==> fs[i] == init[i];
    }
    if i :| 0 <= i < |init| && init[i].name == q[0] && FieldDiffersAt(init[i], q[1..]) {
      assert fs[i] == init[i];
    }
    assert fs[|init|] == last;
  }

  lemma {:induction false} FieldReportedIffDiffers(p: Path, t: Tree, q: Path)
    requires q != []
    ensures p + q in Diff(p, t) <==> t.name == q[0] && FieldDiffersAt(t, q[1..])
    decreases t, 0
  {
    var at := p + [t.name];
    assert (p + q)[|p|] == q[0];
    DiffIsBelow(p, t);
    if t.name == q[0] {
      assert p + q == at + q[1..];
      if t.Struct? && !t.nilDiffers {
        ReportedIffDiffers(at, t.fields, q[1..]);
        if q[1..] == [] {
          FieldsAreBelow(at, t.fields);
        }
      } else {
        assert at + q[1..] == at <==> q[1..] == [];
      }
    }
  }

  /** No path twice, and none below another. */
  ghost predicate Antichain(ps: seq<Path>) {
    forall i, j :: 0 <= i < |ps| && 0 <= j < |ps| && i != j ==> !(ps[i] <= ps[j])
  }

  lemma {:induction false} RanksIncrease(fs: seq<Tree>, i: int, j: int)
    requires Ordered(fs) && 0 <= i < j < |fs|
    ensures fs[i].name < fs[j].name
    decreases j - i
  {
    if i < j - 1 {
      RanksIncrease(fs, i, j - 1);
    }
  }

  lemma {:induction false} DiffIsAntichain(p: Path, t: Tree)
    requires WellFormed(t)
    ensures Antichain(Diff(p, t))
    decreases t, 0
  {
    if t.Struct? {
      FieldsAreAntichain(p + [t.name], t.fields);
    }
  }

  lemma {:induction false} FieldsAreAntichain(p: Path, fs: seq<Tree>)
    requires AllWellFormed(fs)
    ensures Antichain(DiffFields(p, fs))
    decreases fs, 0
  {
    if fs != [] {
      var init, last := fs[..|fs| - 1], fs[|fs| - 1];
      assert forall i :: 0 <= i < |init| ==> init[i] == fs[i];
      FieldsAreAntichain(p, init);
      DiffIsAntichain(p, last);
      FieldsAreBelow(p, init);
      DiffIsBelow(p, last);
      var a, b := DiffFields(p, init), Diff(p, last);
      forall x, y | x in a && y in b
        ensures !(x <= y) && !(y <= x)
      {
        var i :| 0 <= i < |init| && x[|p|] == init[i].name;
        RanksIncrease(fs, i, |fs| - 1);
        assert (p + [last.name])[|p|] == last.name;
        assert y[|p|] == last.name;
      }
      AntichainOfConcat(a, b);
    }
  }

  lemma AntichainOfConcat(a: seq<Path>, b: seq<Path>)
    requires Antichain(a) && Antichain(b)
    requires forall x, y :: x in a && y in b ==> !(x <= y) && !(y <= x)
    ensures Antichain(a + b)
  {
    var c := a + b;
    forall i, j | 0 <= i < |c| && 0 <= j < |c| && i != j
      ensures !(c[i] <= c[j])
    {
      if i < |a| && j >= |a| {
        assert c[i] in a && c[j] in b;
      } else if i >= |a| && j < |a| {
        assert c[j] in a && c[i] in b;
      }
    }
  }

  // ---- which specs the comparison takes for the same ----

  /** Everything but the string lists. */
  function BlankLists(q: InstanceRequirements): InstanceRequirements {
    q.(acceleratorManufacturers := None, acceleratorNames := None, acceleratorTypes := None,
       allowedInstanceTypes := None, cpuManufacturers := None, excludedInstanceTypes := None,
       instanceGenerations := None, localStorageTypes := None)
  }

  predicate RequirementsMatch(eq: SliceEq, a: InstanceRequirements, b: InstanceRequirements) {
    && BlankLists(a) == BlankLists(b)
    && ListsMatch(eq, a.acceleratorManufacturers, b.acceleratorManufacturers)
    && ListsMatch(eq, a.acceleratorNames, b.acceleratorNames)
    && ListsMatch(eq, a.acceleratorTypes, b.acceleratorTypes)
    && ListsMatch(eq, a.allowedInstanceTypes, b.allowedInstanceTypes)
    && ListsMatch(eq, a.cpuManufacturers, b.cpuManufacturers)
    && ListsMatch(eq, a.excludedInstanceTypes, b.excludedInstanceTypes)
    && ListsMatch(eq, a.instanceGenerations, b.instanceGenerations)
    && ListsMatch(eq, a.localStorageTypes, b.localStorageTypes)
  }

  predicate NetworkMatch(eq: SliceEq, a: NetworkConfiguration, b: NetworkConfiguration) {
    ListsMatch(eq, a.securityGroups, b.securityGroups) && ListsMatch(eq, a.subnets, b.subnets)
  }

  predicate TemplateMatch(eq: SliceEq, a: InstanceLaunchTemplate, b: InstanceLaunchTemplate) {
    && a.(profileRef := None, requirements := None, network := None)
       == b.(profileRef := None, requirements := None, network := None)
    && (a.requirements.Some? <==> b.requirements.Some?)
    && (a.requirements.Some? && b.requirements.Some? ==>
          RequirementsMatch(eq, a.requirements.value, b.requirements.value))
    && (a.network.Some? <==> b.network.Some?)
    && (a.network.Some? && b.network.Some? ==> NetworkMatch(eq, a.network.value, b.network.value))
  }

  predicate MipMatch(eq: SliceEq, a: ManagedInstancesProvider, b: ManagedInstancesProvider) {
    && a.(roleRef := None, template := None) == b.(roleRef := None, template := None)
    && (a.template.Some? <==> b.template.Some?)
    && (a.template.Some? && b.template.Some? ==> TemplateMatch(eq, a.template.value, b.template.value))
  }

  predicate AsgpMatch(a: AutoScalingGroupProvider, b: AutoScalingGroupProvider) {
    a.(ref := None) == b.(ref := None)
  }

  /** Equal up to nested references, nil or empty lists, what SliceStringPEqual identifies, and
      the difference between two tag lists with the same map. */
  predicate SpecsMatch(eq: SliceEq, a: Spec, b: Spec)
    requires NoNil(a.tags) && NoNil(b.tags)
  {
    && a.(asgp := None, mip := None, tags := None) == b.(asgp := None, mip := None, tags := None)
    && (a.asgp.Some? <==> b.asgp.Some?)
    && (a.asgp.Some? && b.asgp.Some? ==> AsgpMatch(a.asgp.value, b.asgp.value))
    && (a.mip.Some? <==> b.mip.Some?)
    && (a.mip.Some? && b.mip.Some? ==> MipMatch(eq, a.mip.value, b.mip.value))
    && AckTags(TagsOf(a.tags)) == AckTags(TagsOf(b.tags))
  }

  lemma RangeTreeMeans<T>(name: Field, a: Option<Range<T>>, b: Option<Range<T>>)
    ensures WellFormed(RangeTree(name, a, b))
    ensures Clean(RangeTree(name, a, b)) <==> a == b
  {
    if a.Some? && b.Some? {
      var fs := RangeTree(name, a, b).fields;
      assert fs[0] == PointerTree(MAX, a.value.max, b.value.max);
      assert fs[1] == PointerTree(MIN, a.value.min, b.value.min);
    }
  }

  lemma Concatenated(a: seq<Tree>, b: seq<Tree>)
    ensures AllClean(a + b) <==> AllClean(a) && AllClean(b)
    ensures AllWellFormed(a) && AllWellFormed(b) && (a != [] && b != [] ==> a[|a| - 1].name < b[0].name) ==>
              AllWellFormed(a + b)
  {
    var c := a + b;
    assert forall i :: 0 <= i < |a| ==> a[i] == c[i];
    assert forall i :: 0 <= i < |b| ==> b[i] == c[|a| + i];
  }

  lemma ScalingTreeMeans(a: Option<ManagedScaling>, b: Option<ManagedScaling>)
    ensures WellFormed(ScalingTree(a, b)) && ScalingTree(a, b).name == MANAGED_SCALING
    ensures Clean(ScalingTree(a, b)) <==> a == b
  {
    if a.Some? && b.Some? {
      var x, y := a.value, b.value;
      var fs := ScalingFields(x, y);
      assert fs[0] == PointerTree(INSTANCE_WARMUP_PERIOD, x.instanceWarmupPeriod, y.instanceWarmupPeriod);
      assert fs[1] == PointerTree(MAXIMUM_SCALING_STEP_SIZE, x.maximumScalingStepSize, y.maximumScalingStepSize);
      assert fs[2] == PointerTree(MINIMUM_SCALING_STEP_SIZE, x.minimumScalingStepSize, y.minimumScalingStepSize);
      assert fs[3] == PointerTree(STATUS, x.status, y.status);
      assert fs[4] == PointerTree(TARGET_CAPACITY, x.targetCapacity, y.targetCapacity);
    }
  }

  lemma AsgpTreeMeans(a: Option<AutoScalingGroupProvider>, b: Option<AutoScalingGroupProvider>)
    ensures WellFormed(AsgpTree(a, b)) && AsgpTree(a, b).name == AUTO_SCALING_GROUP_PROVIDER
    ensures Clean(AsgpTree(a, b)) <==> a.Some? == b.Some? && (a.Some? && b.Some? ==> AsgpMatch(a.value, b.value))
  {
    if a.Some? && b.Some? {
      var x, y := a.value, b.value;
      var fs := AsgpFields(x, y);
      ScalingTreeMeans(x.managedScaling, y.managedScaling);
      assert fs[2] == ScalingTree(x.managedScaling, y.managedScaling) && fs[2].name == MANAGED_SCALING;
      assert fs[0] == PointerTree(AUTO_SCALING_GROUP_ARN, x.arn, y.arn);
      assert fs[1] == PointerTree(MANAGED_DRAINING, x.managedDraining, y.managedDraining);
      assert fs[3] == PointerTree(MANAGED_TERMINATION_PROTECTION, x.managedTerminationProtection,
                                  y.managedTerminationProtection);
    }
  }

  lemma AcceleratorFieldsMean(eq: SliceEq, a: InstanceRequirements, b: InstanceRequirements)
    ensures AllWellFormed(AcceleratorFields(eq, a, b))
    ensures AllClean(AcceleratorFields(eq, a, b)) <==>
              && a.acceleratorCount == b.acceleratorCount
              && ListsMatch(eq, a.acceleratorManufacturers, b.acceleratorManufacturers)
              && ListsMatch(eq, a.acceleratorNames, b.acceleratorNames)
              && a.acceleratorTotalMemoryMiB == b.acceleratorTotalMemoryMiB
              && ListsMatch(eq, a.acceleratorTypes, b.acceleratorTypes)
              && ListsMatch(eq, a.allowedInstanceTypes, b.allowedInstanceTypes)
              && a.bareMetal == b.bareMetal
              && a.baselineEbsBandwidthMbps == b.baselineEbsBandwidthMbps
  {
    var fs := AcceleratorFields(eq, a, b);
    RangeTreeMeans(ACCELERATOR_COUNT, a.acceleratorCount, b.acceleratorCount);
    assert fs[0] == RangeTree(ACCELERATOR_COUNT, a.acceleratorCount, b.acceleratorCount);
    assert fs[1] == ListTree(eq, ACCELERATOR_MANUFACTURERS, a.acceleratorManufacturers, b.acceleratorManufacturers);
    assert fs[2] == ListTree(eq, ACCELERATOR_NAMES, a.acceleratorNames, b.acceleratorNames);
    RangeTreeMeans(ACCELERATOR_TOTAL_MEMORY_MIB, a.acceleratorTotalMemoryMiB, b.acceleratorTotalMemoryMiB);
    assert fs[3] == RangeTree(ACCELERATOR_TOTAL_MEMORY_MIB, a.acceleratorTotalMemoryMiB, b.acceleratorTotalMemoryMiB);
    assert fs[4] == ListTree(eq, ACCELERATOR_TYPES, a.acceleratorTypes, b.acceleratorTypes);
    assert fs[5] == ListTree(eq, ALLOWED_INSTANCE_TYPES, a.allowedInstanceTypes, b.allowedInstanceTypes);
    assert fs[6] == PointerTree(BARE_METAL, a.bareMetal, b.bareMetal);
    RangeTreeMeans(BASELINE_EBS_BANDWIDTH_MBPS, a.baselineEbsBandwidthMbps, b.baselineEbsBandwidthMbps);
    assert fs[7] == RangeTree(BASELINE_EBS_BANDWIDTH_MBPS, a.baselineEbsBandwidthMbps, b.baselineEbsBandwidthMbps);
    hide RangeTree, ListsMatch;
  }

  lemma InstanceFieldsMean(eq: SliceEq, a: InstanceRequirements, b: InstanceRequirements)
    ensures AllWellFormed(InstanceFields(eq, a, b))
    ensures AllClean(InstanceFields(eq, a, b)) <==>
              && a.burstablePerformance == b.burstablePerformance
              && ListsMatch(eq, a.cpuManufacturers, b.cpuManufacturers)
              && ListsMatch(eq, a.excludedInstanceTypes, b.excludedInstanceTypes)
              && ListsMatch(eq, a.instanceGenerations, b.instanceGenerations)
              && a.localStorage == b.localStorage
              && ListsMatch(eq, a.localStorageTypes, b.localStorageTypes)
              && a.maxSpotPricePercentage == b.maxSpotPricePercentage
              && a.memoryGiBPerVCpu == b.memoryGiBPerVCpu
  {
    var fs := InstanceFields(eq, a, b);
    assert fs[0] == PointerTree(BURSTABLE_PERFORMANCE, a.burstablePerformance, b.burstablePerformance);
    assert fs[1] == ListTree(eq, CPU_MANUFACTURERS, a.cpuManufacturers, b.cpuManufacturers);
    assert fs[2] == ListTree(eq, EXCLUDED_INSTANCE_TYPES, a.excludedInstanceTypes, b.excludedInstanceTypes);
    assert fs[3] == ListTree(eq, INSTANCE_GENERATIONS, a.instanceGenerations, b.instanceGenerations);
    assert fs[4] == PointerTree(LOCAL_STORAGE, a.localStorage, b.localStorage);
    assert fs[5] == ListTree(eq, LOCAL_STORAGE_TYPES, a.localStorageTypes, b.localStorageTypes);
    assert fs[6] == PointerTree(MAX_SPOT_PRICE_AS_PERCENTAGE_OF_OPTIMAL_ON_DEMAND_PRICE, a.maxSpotPricePercentage,
                                b.maxSpotPricePercentage);
    RangeTreeMeans(MEMORY_GIB_PER_VCPU, a.memoryGiBPerVCpu, b.memoryGiBPerVCpu);
    assert fs[7] == RangeTree(MEMORY_GIB_PER_VCPU, a.memoryGiBPerVCpu, b.memoryGiBPerVCpu);
    hide RangeTree, ListsMatch;
  }

  lemma CapacityFieldsMean(eq: SliceEq, a: InstanceRequirements, b: InstanceRequirements)
    ensures AllWellFormed(CapacityFields(eq, a, b))
    ensures AllClean(CapacityFields(eq, a, b)) <==>
              && a.memoryMiB == b.memoryMiB
              && a.networkBandwidthGbps == b.networkBandwidthGbps
              && a.networkInterfaceCount == b.networkInterfaceCount
              && a.onDemandMaxPricePercentage == b.onDemandMaxPricePercentage
              && a.requireHibernateSupport == b.requireHibernateSupport
              && a.spotMaxPricePercentage == b.spotMaxPricePercentage
              && a.totalLocalStorageGB == b.totalLocalStorageGB
              && a.vCpuCount == b.vCpuCount
  {
    var fs := CapacityFields(eq, a, b);
    RangeTreeMeans(MEMORY_MIB, a.memoryMiB, b.memoryMiB);
    assert fs[0] == RangeTree(MEMORY_MIB, a.memoryMiB, b.memoryMiB);
    RangeTreeMeans(NETWORK_BANDWIDTH_GBPS, a.networkBandwidthGbps, b.networkBandwidthGbps);
    assert fs[1] == RangeTree(NETWORK_BANDWIDTH_GBPS, a.networkBandwidthGbps, b.networkBandwidthGbps);
    RangeTreeMeans(NETWORK_INTERFACE_COUNT, a.networkInterfaceCount, b.networkInterfaceCount);
    assert fs[2] == RangeTree(NETWORK_INTERFACE_COUNT, a.networkInterfaceCount, b.networkInterfaceCount);
    assert fs[3] == PointerTree(ON_DEMAND_MAX_PRICE_PERCENTAGE_OVER_LOWEST_PRICE, a.onDemandMaxPricePercentage,
                                b.onDemandMaxPricePercentage);
    assert fs[4] == PointerTree(REQUIRE_HIBERNATE_SUPPORT, a.requireHibernateSupport, b.requireHibernateSupport);
    assert fs[5] == PointerTree(SPOT_MAX_PRICE_PERCENTAGE_OVER_LOWEST_PRICE, a.spotMaxPricePercentage,
                                b.spotMaxPricePercentage);
    RangeTreeMeans(TOTAL_LOCAL_STORAGE_GB, a.totalLocalStorageGB, b.totalLocalStorageGB);
    assert fs[6] == RangeTree(TOTAL_LOCAL_STORAGE_GB, a.totalLocalStorageGB, b.totalLocalStorageGB);
    RangeTreeMeans(VCPU_COUNT, a.vCpuCount, b.vCpuCount);
    assert fs[7] == RangeTree(VCPU_COUNT, a.vCpuCount, b.vCpuCount);
    hide RangeTree, ListsMatch;
  }

  lemma RequirementsTreeMeans(eq: SliceEq, a: Option<InstanceRequirements>, b: Option<InstanceRequirements>)
    ensures WellFormed(RequirementsTree(eq, a, b)) && RequirementsTree(eq, a, b).name == INSTANCE_REQUIREMENTS
    ensures Clean(RequirementsTree(eq, a, b)) <==>
            a.Some? == b.Some? && (a.Some? && b.Some? ==> RequirementsMatch(eq, a.value, b.value))
  {
    if a.Some? && b.Some? {
      var x, y := a.value, b.value;
      var f1, f2, f3 := AcceleratorFields(eq, x, y), InstanceFields(eq, x, y), CapacityFields(eq, x, y);
      assert f1[|f1| - 1].name == BASELINE_EBS_BANDWIDTH_MBPS && f2[0].name == BURSTABLE_PERFORMANCE;
      assert f2[|f2| - 1].name == MEMORY_GIB_PER_VCPU && f3[0].name == MEMORY_MIB;
      AcceleratorFieldsMean(eq, x, y);
      InstanceFieldsMean(eq, x, y);
      CapacityFieldsMean(eq, x, y);
      Concatenated(f2, f3);
      assert (f2 + f3)[0] == f2[0];
      Concatenated(f1, f2 + f3);
      assert AllClean(RequirementsFields(eq, x, y)) <==> AllClean(f1) && AllClean(f2) && AllClean(f3);
      assert WellFormed(RequirementsTree(eq, a, b));
      hide AcceleratorFields, InstanceFields, CapacityFields, ListsMatch;
    }
  }

  lemma ReservationsTreeMeans(a: Option<CapacityReservations>, b: Option<CapacityReservations>)
    ensures WellFormed(ReservationsTree(a, b)) && ReservationsTree(a, b).name == CAPACITY_RESERVATIONS
    ensures Clean(ReservationsTree(a, b)) <==> a == b
  {
    if a.Some? && b.Some? {
      var x, y := a.value, b.value;
      var fs := ReservationsFields(x, y);
      assert fs[0] == PointerTree(RESERVATION_GROUP_ARN, x.reservationGroupArn, y.reservationGroupArn);
      assert fs[1] == PointerTree(RESERVATION_PREFERENCE, x.reservationPreference, y.reservationPreference);
    }
  }

  lemma LocalStorageTreeMeans(a: Option<LocalStorageConfiguration>, b: Option<LocalStorageConfiguration>)
    ensures WellFormed(LocalStorageTree(a, b)) && LocalStorageTree(a, b).name == LOCAL_STORAGE_CONFIGURATION
    ensures Clean(LocalStorageTree(a, b)) <==> a == b
  {
    if a.Some? && b.Some? {
      assert LocalStorageFields(a.value, b.value)[0]
          == PointerTree(USE_LOCAL_STORAGE, a.value.useLocalStorage, b.value.useLocalStorage);
    }
  }

  lemma NetworkTreeMeans(eq: SliceEq, a: Option<NetworkConfiguration>, b: Option<NetworkConfiguration>)
    ensures WellFormed(NetworkTree(eq, a, b)) && NetworkTree(eq, a, b).name == NETWORK_CONFIGURATION
    ensures Clean(NetworkTree(eq, a, b)) <==>
            a.Some? == b.Some? && (a.Some? && b.Some? ==> NetworkMatch(eq, a.value, b.value))
  {
    if a.Some? && b.Some? {
      var x, y := a.value, b.value;
      var fs := NetworkFields(eq, x, y);
      assert fs[0] == ListTree(eq, SECURITY_GROUPS, x.securityGroups, y.securityGroups);
      assert fs[1] == ListTree(eq, SUBNETS, x.subnets, y.subnets);
    }
  }

  lemma StorageTreeMeans(a: Option<StorageConfiguration>, b: Option<StorageConfiguration>)
    ensures WellFormed(StorageTree(a, b)) && StorageTree(a, b).name == STORAGE_CONFIGURATION
    ensures Clean(StorageTree(a, b)) <==> a == b
  {
    if a.Some? && b.Some? {
      assert StorageFields(a.value, b.value)[0]
          == PointerTree(STORAGE_SIZE_GIB, a.value.storageSizeGiB, b.value.storageSizeGiB);
    }
  }

  lemma TemplateFieldsMean(eq: SliceEq, x: InstanceLaunchTemplate, y: InstanceLaunchTemplate)
    ensures AllWellFormed(TemplateFields(eq, x, y))
    ensures AllClean(TemplateFields(eq, x, y)) <==> TemplateMatch(eq, x, y)
  {
    hide RequirementsTree, NetworkTree, ReservationsTree, LocalStorageTree, StorageTree;
    hide RequirementsMatch, NetworkMatch;
    var fs := TemplateFields(eq, x, y);
    ReservationsTreeMeans(x.capacityReservations, y.capacityReservations);
    RequirementsTreeMeans(eq, x.requirements, y.requirements);
    LocalStorageTreeMeans(x.localStorage, y.localStorage);
    NetworkTreeMeans(eq, x.network, y.network);
    StorageTreeMeans(x.storage, y.storage);
    assert fs[0] == PointerTree(CAPACITY_OPTION_TYPE, x.capacityOptionType, y.capacityOptionType);
    assert fs[1] == ReservationsTree(x.capacityReservations, y.capacityReservations);
    assert fs[2] == PointerTree(EC2_INSTANCE_PROFILE_ARN, x.profileArn, y.profileArn);
    assert fs[3] == PointerTree(FIPS_ENABLED, x.fipsEnabled, y.fipsEnabled);
    assert fs[4] == PointerTree(INSTANCE_METADATA_TAGS_PROPAGATION, x.tagsPropagation, y.tagsPropagation);
    assert fs[5] == RequirementsTree(eq, x.requirements, y.requirements);
    assert fs[6] == LocalStorageTree(x.localStorage, y.localStorage);
    assert fs[7] == PointerTree(MONITORING, x.monitoring, y.monitoring);
    assert fs[8] == NetworkTree(eq, x.network, y.network);
    assert fs[9] == StorageTree(x.storage, y.storage);
  }

  lemma TemplateTreeMeans(eq: SliceEq, a: Option<InstanceLaunchTemplate>, b: Option<InstanceLaunchTemplate>)
    ensures WellFormed(TemplateTree(eq, a, b)) && TemplateTree(eq, a, b).name == INSTANCE_LAUNCH_TEMPLATE
    ensures Clean(TemplateTree(eq, a, b)) <==>
            a.Some? == b.Some? && (a.Some? && b.Some? ==> TemplateMatch(eq, a.value, b.value))
  {
    hide TemplateFields, TemplateMatch;
    if a.Some? && b.Some? {
      TemplateFieldsMean(eq, a.value, b.value);
    }
  }

  lemma AutoRepairTreeMeans(a: Option<AutoRepairConfiguration>, b: Option<AutoRepairConfiguration>)
    ensures WellFormed(AutoRepairTree(a, b)) && AutoRepairTree(a, b).name == AUTO_REPAIR_CONFIGURATION
    ensures Clean(AutoRepairTree(a, b)) <==> a == b
  {
    if a.Some? && b.Some? {
      assert AutoRepairFields(a.value, b.value)[0]
          == PointerTree(ACTIONS_STATUS, a.value.actionsStatus, b.value.actionsStatus);
    }
  }

  lemma OptimizationTreeMeans(a: Option<InfrastructureOptimization>, b: Option<InfrastructureOptimization>)
    ensures WellFormed(OptimizationTree(a, b)) && OptimizationTree(a, b).name == INFRASTRUCTURE_OPTIMIZATION
    ensures Clean(OptimizationTree(a, b)) <==> a == b
  {
    if a.Some? && b.Some? {
      assert OptimizationFields(a.value, b.value)[0]
          == PointerTree(SCALE_IN_AFTER, a.value.scaleInAfter, b.value.scaleInAfter);
    }
  }

  lemma MipTreeMeans(eq: SliceEq, a: Option<ManagedInstancesProvider>, b: Option<ManagedInstancesProvider>)
    ensures WellFormed(MipTree(eq, a, b)) && MipTree(eq, a, b).name == MANAGED_INSTANCES_PROVIDER
    ensures Clean(MipTree(eq, a, b)) <==> a.Some? == b.Some? && (a.Some? && b.Some? ==> MipMatch(eq, a.value, b.value))
  {
    if a.Some? && b.Some? {
      var x, y := a.value, b.value;
      var fs := MipFields(eq, x, y);
      AutoRepairTreeMeans(x.autoRepair, y.autoRepair);
      assert fs[0] == AutoRepairTree(x.autoRepair, y.autoRepair) && fs[0].name == AUTO_REPAIR_CONFIGURATION;
      OptimizationTreeMeans(x.optimization, y.optimization);
      assert fs[1] == OptimizationTree(x.optimization, y.optimization) && fs[1].name == INFRASTRUCTURE_OPTIMIZATION;
      TemplateTreeMeans(eq, x.template, y.template);
      assert fs[3] == TemplateTree(eq, x.template, y.template) && fs[3].name == INSTANCE_LAUNCH_TEMPLATE;
      assert fs[2] == PointerTree(INFRASTRUCTURE_ROLE_ARN, x.roleArn, y.roleArn);
      assert fs[4] == PointerTree(PROPAGATE_TAGS, x.propagateTags, y.propagateTags);
    }
  }

  lemma SpecFieldsMean(eq: SliceEq, a: Spec, b: Spec)
    requires NoNil(a.tags) && NoNil(b.tags)
    ensures AllWellFormed(SpecFields(eq, a, b))
    ensures AllClean(SpecFields(eq, a, b)) <==> SpecsMatch(eq, a, b)
  {
    var fs := SpecFields(eq, a, b);
    AsgpTreeMeans(a.asgp, b.asgp);
    MipTreeMeans(eq, a.mip, b.mip);
    assert fs[0] == AsgpTree(a.asgp, b.asgp) && fs[0].name == AUTO_SCALING_GROUP_PROVIDER;
    assert fs[1] == PointerTree(CLUSTER, a.cluster, b.cluster);
    assert fs[2] == PointerTree(CLUSTER_REF, a.clusterRef, b.clusterRef);
    assert fs[3] == MipTree(eq, a.mip, b.mip) && fs[3].name == MANAGED_INSTANCES_PROVIDER;
    assert fs[4] == PointerTree(NAME, a.name, b.name);
    assert fs[5] == Leaf(TAGS, AckTags(TagsOf(a.tags)) != AckTags(TagsOf(b.tags)));
    hide AsgpTree, MipTree, AsgpMatch, MipMatch;
  }

  /** Nothing is reported exactly when the compared fields match. */
  lemma DeltaEmptyIff(eq: SliceEq, a: Spec, b: Spec)
    requires NoNil(a.tags) && NoNil(b.tags)
    ensures DeltaOf(eq, Some(a), Some(b)) == [] <==> SpecsMatch(eq, a, b)
  {
    FieldsEmptyIffClean([SPEC], SpecFields(eq, a, b));
    SpecFieldsMean(eq, a, b);
  }

  /** No path is reported twice or below another reported path. */
  lemma DeltaIsAntichain(eq: SliceEq, a: Option<Spec>, b: Option<Spec>)
    requires a.Some? || b.Some?
    requires a.Some? && b.Some? ==> NoNil(a.value.tags) && NoNil(b.value.tags)
    ensures Antichain(DeltaOf(eq, a, b))
  {
    if a.Some? && b.Some? {
      SpecFieldsMean(eq, a.value, b.value);
      FieldsAreAntichain([SPEC], SpecFields(eq, a.value, b.value));
    }
  }

  ghost predicate Symmetric(eq: SliceEq) {
    forall x, y :: eq(x, y) <==> eq(y, x)
  }

  ghost predicate Reflexive(eq: SliceEq) {
    forall x :: eq(x, x)
  }

  lemma AcceleratorSymmetric(eq: SliceEq, a: InstanceRequirements, b: InstanceRequirements)
    requires Symmetric(eq)
    ensures AcceleratorFields(eq, a, b) == AcceleratorFields(eq, b, a)
  {
  }

  lemma InstanceSymmetric(eq: SliceEq, a: InstanceRequirements, b: InstanceRequirements)
    requires Symmetric(eq)
    ensures InstanceFields(eq, a, b) == InstanceFields(eq, b, a)
  {
  }

  lemma CapacitySymmetric(eq: SliceEq, a: InstanceRequirements, b: InstanceRequirements)
    requires Symmetric(eq)
    ensures CapacityFields(eq, a, b) == CapacityFields(eq, b, a)
  {
  }

  lemma RequirementsSymmetric(eq: SliceEq, a: InstanceRequirements, b: InstanceRequirements)
    requires Symmetric(eq)
    ensures RequirementsFields(eq, a, b) == RequirementsFields(eq, b, a)
  {
    AcceleratorSymmetric(eq, a, b);
    InstanceSymmetric(eq, a, b);
    CapacitySymmetric(eq, a, b);
    hide AcceleratorFields, InstanceFields, CapacityFields;
  }

  lemma TemplateSymmetric(eq: SliceEq, a: Option<InstanceLaunchTemplate>, b: Option<InstanceLaunchTemplate>)
    requires Symmetric(eq)
    ensures TemplateTree(eq, a, b) == TemplateTree(eq, b, a)
  {
    if a.Some? && b.Some? {
      var x, y := a.value, b.value;
      if x.requirements.Some? && y.requirements.Some? {
        RequirementsSymmetric(eq, x.requirements.value, y.requirements.value);
      }
      assert RequirementsTree(eq, x.requirements, y.requirements)
          == RequirementsTree(eq, y.requirements, x.requirements);
      hide RequirementsTree;
      assert TemplateFields(eq, x, y) == TemplateFields(eq, y, x);
    }
  }

  lemma MipSymmetric(eq: SliceEq, a: Option<ManagedInstancesProvider>, b: Option<ManagedInstancesProvider>)
    requires Symmetric(eq)
    ensures MipTree(eq, a, b) == MipTree(eq, b, a)
  {
    if a.Some? && b.Some? {
      TemplateSymmetric(eq, a.value.template, b.value.template);
      hide TemplateTree;
      assert MipFields(eq, a.value, b.value) == MipFields(eq, b.value, a.value);
    }
  }

  lemma AsgpSymmetric(a: Option<AutoScalingGroupProvider>, b: Option<AutoScalingGroupProvider>)
    ensures AsgpTree(a, b) == AsgpTree(b, a)
  {
  }

  /** The same paths are reported with the arguments swapped. */
  lemma DeltaSymmetric(eq: SliceEq, a: Option<Spec>, b: Option<Spec>)
    requires Symmetric(eq)
    requires a.Some? || b.Some?
    requires a.Some? && b.Some? ==> NoNil(a.value.tags) && NoNil(b.value.tags)
    ensures DeltaOf(eq, a, b) == DeltaOf(eq, b, a)
  {
    if a.Some? && b.Some? {
      MipSymmetric(eq, a.value.mip, b.value.mip);
      AsgpSymmetric(a.value.asgp, b.value.asgp);
      hide MipTree, AsgpTree;
      assert SpecFields(eq, a.value, b.value) == SpecFields(eq, b.value, a.value);
    }
  }

  // ---- the delta and restored references ----

  /** Restoring references created no container that latest lacked. */
  predicate ContainersKept(d: Spec, l: Spec) {
    var e := Ensure(d, l);
    && (e.asgp.Some? <==> l.asgp.Some?)
    && (e.mip.Some? <==> l.mip.Some?)
    && (TemplateOf(e).Some? <==> TemplateOf(l).Some?)
    && (NetworkOf(e).Some? <==> NetworkOf(l).Some?)
  }

  lemma EnsuredTemplateSame(eq: SliceEq, x: Option<InstanceLaunchTemplate>,
                            d: Option<InstanceLaunchTemplate>, l: Option<InstanceLaunchTemplate>)
    requires var e := EnsureTemplate(d, l);
             (e.Some? <==> l.Some?) && (l.Some? ==> (e.value.network.Some? <==> l.value.network.Some?))
    ensures TemplateTree(eq, x, EnsureTemplate(d, l)) == TemplateTree(eq, x, l)
  {
  }

  /** Without new containers the delta against any spec is the same as before. */
  lemma EnsureLeavesDelta(eq: SliceEq, x: Spec, d: Spec, l: Spec)
    requires NoNil(x.tags) && NoNil(l.tags)
    requires ContainersKept(d, l)
    ensures DeltaOf(eq, Some(x), Some(Ensure(d, l))) == DeltaOf(eq, Some(x), Some(l))
  {
    var e := Ensure(d, l);
    if l.mip.Some? && d.mip.Some? {
      EnsuredTemplateSame(eq, if x.mip.Some? then x.mip.value.template else None, d.mip.value.template,
                          l.mip.value.template);
    }
    hide TemplateTree, EnsureTemplate;
    assert MipTree(eq, x.mip, e.mip) == MipTree(eq, x.mip, l.mip);
    assert AsgpTree(x.asgp, e.asgp) == AsgpTree(x.asgp, l.asgp);
    assert SpecFields(eq, x, e) == SpecFields(eq, x, l);
  }

  lemma SameSpecsMatch(eq: SliceEq, s: Spec)
    requires NoNil(s.tags) && Reflexive(eq)
    ensures SpecsMatch(eq, s, s)
  {
  }

  /** And a new container shows up in the delta, at the latest against latest itself. */
  lemma NewContainerIsReported(eq: SliceEq, d: Spec, l: Spec)
    requires NoNil(l.tags) && Reflexive(eq)
    ensures DeltaOf(eq, Some(l), Some(Ensure(d, l))) == [] <==> ContainersKept(d, l)
  {
    DeltaEmptyIff(eq, l, Ensure(d, l));
    SameSpecsMatch(eq, l);
    if ContainersKept(d, l) {
      EnsureLeavesDelta(eq, l, d, l);
    }
  }
}
