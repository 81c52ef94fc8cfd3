/** newCreateRequestPayload of pkg/resource/capacity_provider/sdk.go, filled in field by field as
    there, and proved to build what Payloads.dfy says. */
module PayloadMethods {
  import opened ApiTypes
  import opened Payloads

  method NarrowField(field: string, v: Option<int64>) returns (r: Outcome<Option<int32>>)
    ensures r == NarrowInt(field, v)
  {
    if v.Some? {
      var copy := v.value;
      if copy > MAX_INT32 || copy < MIN_INT32 {
        return Err(field);
      }
      return Ok(Some(copy));
    }
    return Ok(None);
  }

  method BuildRange(o: Option<Range<int64>>) returns (r: Outcome<Option<Range<int32>>>)
    ensures r == NarrowRange(o)
  {
    if o.None? {
      return Ok(None);
    }
    var max :- NarrowField("max", o.value.max);
    var min :- NarrowField("min", o.value.min);
    return Ok(Some(Range(max, min)));
  }

  method BuildEnumList(l: StringPList) returns (r: Outcome<Slice<string>>)
    ensures r == EnumList(l)
  {
    if l.None? {
      return Ok(None);
    }
    var elems: seq<string> := [];
    for i := 0 to |l.value|
      invariant |elems| == i
      invariant forall j :: 0 <= j < i ==> l.value[j].Some? && elems[j] == l.value[j].value
    {
      if l.value[i].None? {
        assert Elements(l)[i].None?;
        return Panic;
      }
      elems := elems + [l.value[i].value];
    }
    assert elems == PlainList(l).value;
    return Ok(Some(elems));
  }

  method BuildTags(l: TagList) returns (r: Outcome<Slice<Tag>>)
    ensures r == TagPayload(l)
  {
    if l.None? {
      return Ok(None);
    }
    var elems: seq<Tag> := [];
    for i := 0 to |l.value|
      invariant |elems| == i
      invariant forall j :: 0 <= j < i ==> l.value[j].Some? && elems[j] == l.value[j].value
    {
      if l.value[i].None? {
        assert Elements(l)[i].None?;
        return Panic;
      }
      var tag := l.value[i].value;
      var elem := Tag(None, None);
      if tag.key.Some? {
        elem := elem.(key := tag.key);
      }
      if tag.value.Some? {
        elem := elem.(value := tag.value);
      }
      elems := elems + [elem];
    }
    assert NoNil(l);
    assert TagPayload(l).Ok? && elems == TagPayload(l).value.value;
    return Ok(Some(elems));
  }

  method BuildScaling(m: ManagedScaling) returns (r: Outcome<Option<SdkManagedScaling>>)
    ensures r == ScalingPayload(Some(m))
  {
    var f := SdkManagedScaling(None, None, None, "", None);
    var warmup :- NarrowField("instanceWarmupPeriod", m.instanceWarmupPeriod);
    f := f.(instanceWarmupPeriod := warmup);
    var maxStep :- NarrowField("maximumScalingStepSize", m.maximumScalingStepSize);
    f := f.(maximumScalingStepSize := maxStep);
    var minStep :- NarrowField("minimumScalingStepSize", m.minimumScalingStepSize);
    f := f.(minimumScalingStepSize := minStep);
    if m.status.Some? {
      f := f.(status := m.status.value);
    }
    var target :- NarrowField("targetCapacity", m.targetCapacity);
    f := f.(targetCapacity := target);
    return Ok(Some(f));
  }

  method BuildAccelerators(q: InstanceRequirements, f0: SdkRequirements) returns (r: Outcome<SdkRequirements>)
    requires f0.bareMetal == "" && f0.allowedInstanceTypes.None?
    ensures r == AddAccelerators(q, f0)
  {
    var f := f0;
    var count :- BuildRange(q.acceleratorCount);
    f := f.(acceleratorCount := count);
    var manufacturers :- BuildEnumList(q.acceleratorManufacturers);
    f := f.(acceleratorManufacturers := manufacturers);
    var names :- BuildEnumList(q.acceleratorNames);
    f := f.(acceleratorNames := names);
    var memory :- BuildRange(q.acceleratorTotalMemoryMiB);
    f := f.(acceleratorTotalMemoryMiB := memory);
    var types :- BuildEnumList(q.acceleratorTypes);
    f := f.(acceleratorTypes := types);
    if q.allowedInstanceTypes.Some? {
      f := f.(allowedInstanceTypes := PlainList(q.allowedInstanceTypes));
    }
    if q.bareMetal.Some? {
      f := f.(bareMetal := q.bareMetal.value);
    }
    return Ok(f);
  }

  method BuildInstances(q: InstanceRequirements, f0: SdkRequirements) returns (r: Outcome<SdkRequirements>)
    requires f0.burstablePerformance == "" && f0.excludedInstanceTypes.None? && f0.localStorage == ""
    ensures r == AddInstances(q, f0)
  {
    var f := f0;
    var bandwidth :- BuildRange(q.baselineEbsBandwidthMbps);
    f := f.(baselineEbsBandwidthMbps := bandwidth);
    if q.burstablePerformance.Some? {
      f := f.(burstablePerformance := q.burstablePerformance.value);
    }
    var manufacturers :- BuildEnumList(q.cpuManufacturers);
    f := f.(cpuManufacturers := manufacturers);
    if q.excludedInstanceTypes.Some? {
      f := f.(excludedInstanceTypes := PlainList(q.excludedInstanceTypes));
    }
    var generations :- BuildEnumList(q.instanceGenerations);
    f := f.(instanceGenerations := generations);
    if q.localStorage.Some? {
      f := f.(localStorage := q.localStorage.value);
    }
    var storageTypes :- BuildEnumList(q.localStorageTypes);
    f := f.(localStorageTypes := storageTypes);
    var maxSpot :- NarrowField("maxSpotPriceAsPercentageOfOptimalOnDemandPrice", q.maxSpotPricePercentage);
    f := f.(maxSpotPricePercentage := maxSpot);
    return Ok(f);
  }

  method BuildCapacity(q: InstanceRequirements, f0: SdkRequirements) returns (r: Outcome<SdkRequirements>)
    requires f0.requireHibernateSupport.None?
    ensures r == AddCapacity(q, f0)
  {
    var f := f0.(memoryGiBPerVCpu := q.memoryGiBPerVCpu);
    var memory :- BuildRange(q.memoryMiB);
    f := f.(memoryMiB := memory);
    f := f.(networkBandwidthGbps := q.networkBandwidthGbps);
    var interfaces :- BuildRange(q.networkInterfaceCount);
    f := f.(networkInterfaceCount := interfaces);
    var onDemand :- NarrowField("onDemandMaxPricePercentageOverLowestPrice", q.onDemandMaxPricePercentage);
    f := f.(onDemandMaxPricePercentage := onDemand);
    if q.requireHibernateSupport.Some? {
      f := f.(requireHibernateSupport := q.requireHibernateSupport);
    }
    var spot :- NarrowField("spotMaxPricePercentageOverLowestPrice", q.spotMaxPricePercentage);
    f := f.(spotMaxPricePercentage := spot);
    f := f.(totalLocalStorageGB := q.totalLocalStorageGB);
    var vCpus :- BuildRange(q.vCpuCount);
    f := f.(vCpuCount := vCpus);
    return Ok(f);
  }

  method BuildRequirements(q: InstanceRequirements) returns (r: Outcome<Option<SdkRequirements>>)
    ensures r == RequirementsPayload(Some(q))
  {
    var f1 :- BuildAccelerators(q, EMPTY_REQUIREMENTS);
    var f2 :- BuildInstances(q, f1);
    var f3 :- BuildCapacity(q, f2);
    return Ok(Some(f3));
  }

  method BuildStorage(c: StorageConfiguration) returns (r: Outcome<Option<SdkStorage>>)
    ensures r == StoragePayload(Some(c))
  {
    var size :- NarrowField("storageSizeGiB", c.storageSizeGiB);
    return Ok(Some(SdkStorage(size)));
  }

  method BuildOptimization(o: InfrastructureOptimization) returns (r: Outcome<Option<SdkOptimization>>)
    ensures r == OptimizationPayload(Some(o))
  {
    var after :- NarrowField("scaleInAfter", o.scaleInAfter);
    return Ok(Some(SdkOptimization(after)));
  }

  method BuildReservations(c: CapacityReservations) returns (r: SdkCapacityReservations)
    ensures Some(r) == ReservationsPayload(Some(c))
  {
    r := SdkCapacityReservations(None, "");
    if c.reservationGroupArn.Some? {
      r := r.(reservationGroupArn := c.reservationGroupArn);
    }
    if c.reservationPreference.Some? {
      r := r.(reservationPreference := c.reservationPreference.value);
    }
  }

  method BuildLocalStorage(l: LocalStorageConfiguration) returns (r: SdkLocalStorage)
    ensures Some(r) == LocalStoragePayload(Some(l))
  {
    r := SdkLocalStorage(false);
    if l.useLocalStorage.Some? {
      r := r.(useLocalStorage := l.useLocalStorage.value);
    }
  }

  method BuildNetwork(n: NetworkConfiguration) returns (r: SdkNetwork)
    ensures Some(r) == NetworkPayload(Some(n))
  {
    r := SdkNetwork(None, None);
    if n.securityGroups.Some? {
      r := r.(securityGroups := PlainList(n.securityGroups));
    }
    if n.subnets.Some? {
      r := r.(subnets := PlainList(n.subnets));
    }
  }

  method BuildAutoRepair(a: AutoRepairConfiguration) returns (r: SdkAutoRepair)
    ensures Some(r) == AutoRepairPayload(Some(a))
  {
    r := SdkAutoRepair("");
    if a.actionsStatus.Some? {
      r := r.(actionsStatus := a.actionsStatus.value);
    }
  }

  // ---- the create request ----

  method BuildAsgp(a: AutoScalingGroupProvider) returns (r: Outcome<Option<SdkAsgp>>)
    ensures r == AsgpPayload(Some(a))
  {
    var f0 := SdkAsgp(None, "", None, "");
    if a.arn.Some? {
      f0 := f0.(arn := a.arn);
    }
    if a.managedDraining.Some? {
      f0 := f0.(managedDraining := a.managedDraining.value);
    }
    if a.managedScaling.Some? {
      var f2 :- BuildScaling(a.managedScaling.value);
      f0 := f0.(managedScaling := f2);
    }
    if a.managedTerminationProtection.Some? {
      f0 := f0.(managedTerminationProtection := a.managedTerminationProtection.value);
    }
    return Ok(Some(f0));
  }

  /** The template fields before the instance requirements. */
  method StartTemplate(t: InstanceLaunchTemplate) returns (f: SdkTemplate)
    ensures f == SdkTemplate(EnumString(t.capacityOptionType), ReservationsPayload(t.capacityReservations),
                             t.profileArn, t.fipsEnabled, t.tagsPropagation, None, None, "", None, None)
  {
    f := SdkTemplate("", None, None, None, None, None, None, "", None, None);
    if t.capacityOptionType.Some? {
      f := f.(capacityOptionType := t.capacityOptionType.value);
    }
    if t.capacityReservations.Some? {
      var f1 := BuildReservations(t.capacityReservations.value);
      f := f.(capacityReservations := Some(f1));
    }
    if t.profileArn.Some? {
      f := f.(profileArn := t.profileArn);
    }
    if t.fipsEnabled.Some? {
      f := f.(fipsEnabled := t.fipsEnabled);
    }
    if t.tagsPropagation.Some? {
      f := f.(tagsPropagation := t.tagsPropagation);
    }
  }

  /** The template fields between the requirements and the storage. */
  method ContinueTemplate(t: InstanceLaunchTemplate, f0: SdkTemplate) returns (f: SdkTemplate)
    requires f0.localStorage.None? && f0.monitoring == "" && f0.network.None?
    ensures f == f0.(localStorage := LocalStoragePayload(t.localStorage), monitoring := EnumString(t.monitoring),
                     network := NetworkPayload(t.network))
  {
    f := f0;
    if t.localStorage.Some? {
      var f6 := BuildLocalStorage(t.localStorage.value);
      f := f.(localStorage := Some(f6));
    }
    if t.monitoring.Some? {
      f := f.(monitoring := t.monitoring.value);
    }
    if t.network.Some? {
      var f8 := BuildNetwork(t.network.value);
      f := f.(network := Some(f8));
    }
  }

  method BuildTemplate(t: InstanceLaunchTemplate) returns (r: Outcome<Option<SdkTemplate>>)
    ensures r == TemplatePayload(Some(t))
  {
    assert RequirementsPayload(None) == Ok(None) && StoragePayload(None) == Ok(None);
    hide RequirementsPayload, StoragePayload, ReservationsPayload, LocalStoragePayload, NetworkPayload;
    var f := StartTemplate(t);
    if t.requirements.Some? {
      var f5 :- BuildRequirements(t.requirements.value);
      f := f.(requirements := f5);
    }
    f := ContinueTemplate(t, f);
    if t.storage.Some? {
      var f9 :- BuildStorage(t.storage.value);
      f := f.(storage := f9);
    }
    return Ok(Some(f));
  }

  method BuildMip(m: ManagedInstancesProvider) returns (r: Outcome<Option<SdkMip>>)
    ensures r == MipPayload(Some(m))
  {
    var f2 := SdkMip(None, None, None, None, "");
    if m.autoRepair.Some? {
      var f2f0 := BuildAutoRepair(m.autoRepair.value);
      f2 := f2.(autoRepair := Some(f2f0));
    }
    if m.optimization.Some? {
      var f2f1 :- BuildOptimization(m.optimization.value);
      f2 := f2.(optimization := f2f1);
    }
    if m.roleArn.Some? {
      f2 := f2.(roleArn := m.roleArn);
    }
    if m.template.Some? {
      var f2f3 :- BuildTemplate(m.template.value);
      f2 := f2.(template := f2f3);
    }
    if m.propagateTags.Some? {
      f2 := f2.(propagateTags := m.propagateTags.value);
    }
    return Ok(Some(f2));
  }

  method NewCreateRequestPayload(s: Spec) returns (r: Outcome<CreateInput>)
    ensures r == CreatePayload(s)
  {
    var res := CreateInput(None, None, None, None, None);
    if s.asgp.Some? {
      var f0 :- BuildAsgp(s.asgp.value);
      res := res.(asgp := f0);
    }
    if s.cluster.Some? {
      res := res.(cluster := s.cluster);
    }
    if s.mip.Some? {
      var f2 :- BuildMip(s.mip.value);
      res := res.(mip := f2);
    }
    if s.name.Some? {
      res := res.(name := s.name);
    }
    if s.tags.Some? {
      var f4 :- BuildTags(s.tags);
      res := res.(tags := f4);
    }
    return Ok(res);
  }
}
