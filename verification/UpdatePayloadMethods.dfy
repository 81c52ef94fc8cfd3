/** newUpdateRequestPayload of pkg/resource/capacity_provider/sdk.go, filled in field by field as
    there, and proved to build what UpdatePayloads.dfy says. */
module UpdatePayloadMethods {
  import opened ApiTypes
  import opened Payloads
  import opened PayloadMethods
  import opened UpdatePayloads

  method FillScaling(m: ManagedScaling) returns (r: Outcome<Option<SdkManagedScaling>>)
    ensures r == ScalingUpdate(Some(m))
  {
    var f0f1 := SdkManagedScaling(None, None, None, "", None);
    var warmup :- NarrowField("instanceWarmupPeriod", m.instanceWarmupPeriod);
    f0f1 := f0f1.(instanceWarmupPeriod := warmup);
    var maxStep :- NarrowField("maximumScalingStepSize", m.maximumScalingStepSize);
    f0f1 := f0f1.(maximumScalingStepSize := maxStep);
    var minStep :- NarrowField("minimumScalingStepSize", m.minimumScalingStepSize);
    f0f1 := f0f1.(minimumScalingStepSize := minStep);
    if m.status.Some? {
      f0f1 := f0f1.(status := m.status.value);
    }
    var target :- NarrowField("targetCapacity", m.targetCapacity);
    f0f1 := f0f1.(targetCapacity := target);
    return Ok(Some(f0f1));
  }

  method FillAsgp(a: AutoScalingGroupProvider) returns (r: Outcome<Option<SdkAsgpUpdate>>)
    ensures r == AsgpUpdate(Some(a))
  {
    assert ScalingUpdate(None) == Ok(None);
    hide ScalingUpdate;
    var f0 := SdkAsgpUpdate("", None, "");
    if a.managedDraining.Some? {
      f0 := f0.(managedDraining := a.managedDraining.value);
    }
    if a.managedScaling.Some? {
      var f0f1 :- FillScaling(a.managedScaling.value);
      f0 := f0.(managedScaling := f0f1);
    }
    if a.managedTerminationProtection.Some? {
      f0 := f0.(managedTerminationProtection := a.managedTerminationProtection.value);
    }
    return Ok(Some(f0));
  }

  method FillRange(o: Option<Range<int64>>) returns (r: Outcome<Option<Range<int32>>>)
    ensures r == RangeUpdate(o)
  {
    if o.None? {
      return Ok(None);
    }
    var max :- NarrowField("max", o.value.max);
    var min :- NarrowField("min", o.value.min);
    return Ok(Some(Range(max, min)));
  }

  method FillFloatRange(o: Option<Range<real>>) returns (r: Option<Range<real>>)
    ensures r == FloatRangeUpdate(o)
  {
    r := None;
    if o.Some? {
      var f := Range(None, None);
      if o.value.max.Some? {
        f := f.(max := o.value.max);
      }
      if o.value.min.Some? {
        f := f.(min := o.value.min);
      }
      r := Some(f);
    }
  }

  method FillAccelerators(q: InstanceRequirements, f0: SdkRequirements) returns (r: Outcome<SdkRequirements>)
    requires f0.bareMetal == "" && f0.allowedInstanceTypes.None?
    ensures r == AcceleratorsUpdate(q, f0)
  {
    hide RangeUpdate, EnumList;
    var f := f0;
    var count :- FillRange(q.acceleratorCount);
    f := f.(acceleratorCount := count);
    var manufacturers :- BuildEnumList(q.acceleratorManufacturers);
    f := f.(acceleratorManufacturers := manufacturers);
    var names :- BuildEnumList(q.acceleratorNames);
    f := f.(acceleratorNames := names);
    var memory :- FillRange(q.acceleratorTotalMemoryMiB);
    f := f.(acceleratorTotalMemoryMiB := memory);
    var types :- BuildEnumList(q.acceleratorTypes);
    f := f.(acceleratorTypes := types);
    if q.allowedInstanceTypes.Some? {
      f := f.(allowedInstanceTypes := PlainList(q.allowedInstanceTypes));
    }
    if q.bareMetal.Some? {
      f := f.(bareMetal := q.bareMetal.value);
    }
    return Ok(f);
  }

  method FillInstances(q: InstanceRequirements, f0: SdkRequirements) returns (r: Outcome<SdkRequirements>)
    requires f0.burstablePerformance == "" && f0.excludedInstanceTypes.None? && f0.localStorage == ""
    ensures r == InstancesUpdate(q, f0)
  {
    hide RangeUpdate, EnumList, NarrowInt;
    var f := f0;
    var bandwidth :- FillRange(q.baselineEbsBandwidthMbps);
    f := f.(baselineEbsBandwidthMbps := bandwidth);
    if q.burstablePerformance.Some? {
      f := f.(burstablePerformance := q.burstablePerformance.value);
    }
    var manufacturers :- BuildEnumList(q.cpuManufacturers);
    f := f.(cpuManufacturers := manufacturers);
    if q.excludedInstanceTypes.Some? {
      f := f.(excludedInstanceTypes := PlainList(q.excludedInstanceTypes));
    }
    var generations :- BuildEnumList(q.instanceGenerations);
    f := f.(instanceGenerations := generations);
    if q.localStorage.Some? {
      f := f.(localStorage := q.localStorage.value);
    }
    var storageTypes :- BuildEnumList(q.localStorageTypes);
    f := f.(localStorageTypes := storageTypes);
    var maxSpot :- NarrowField("maxSpotPriceAsPercentageOfOptimalOnDemandPrice", q.maxSpotPricePercentage);
    f := f.(maxSpotPricePercentage := maxSpot);
    return Ok(f);
  }

  method FillCapacity(q: InstanceRequirements, f0: SdkRequirements) returns (r: Outcome<SdkRequirements>)
    requires f0.requireHibernateSupport.None?
    ensures r == CapacityUpdate(q, f0)
  {
    hide RangeUpdate, FloatRangeUpdate, NarrowInt;
    var memoryPerCpu := FillFloatRange(q.memoryGiBPerVCpu);
    var f := f0.(memoryGiBPerVCpu := memoryPerCpu);
    var memory :- FillRange(q.memoryMiB);
    f := f.(memoryMiB := memory);
    var bandwidth := FillFloatRange(q.networkBandwidthGbps);
    f := f.(networkBandwidthGbps := bandwidth);
    var interfaces :- FillRange(q.networkInterfaceCount);
    f := f.(networkInterfaceCount := interfaces);
    var onDemand :- NarrowField("onDemandMaxPricePercentageOverLowestPrice", q.onDemandMaxPricePercentage);
    f := f.(onDemandMaxPricePercentage := onDemand);
    if q.requireHibernateSupport.Some? {
      f := f.(requireHibernateSupport := q.requireHibernateSupport);
    }
    var spot :- NarrowField("spotMaxPricePercentageOverLowestPrice", q.spotMaxPricePercentage);
    f := f.(spotMaxPricePercentage := spot);
    var total := FillFloatRange(q.totalLocalStorageGB);
    f := f.(totalLocalStorageGB := total);
    var vCpus :- FillRange(q.vCpuCount);
    f := f.(vCpuCount := vCpus);
    return Ok(f);
  }

  method FillRequirements(q: InstanceRequirements) returns (r: Outcome<Option<SdkRequirements>>)
    ensures r == RequirementsUpdate(Some(q))
  {
    hide RangeUpdate, EnumList, NarrowInt;
    var f1 :- FillAccelerators(q, EMPTY_REQUIREMENTS);
    var f2 :- FillInstances(q, f1);
    var f3 :- FillCapacity(q, f2);
    return Ok(Some(f3));
  }

  method FillReservations(c: CapacityReservations) returns (r: SdkCapacityReservations)
    ensures Some(r) == ReservationsUpdate(Some(c))
  {
    r := SdkCapacityReservations(None, "");
    if c.reservationGroupArn.Some? {
      r := r.(reservationGroupArn := c.reservationGroupArn);
    }
    if c.reservationPreference.Some? {
      r := r.(reservationPreference := c.reservationPreference.value);
    }
  }

  method FillLocalStorage(c: LocalStorageConfiguration) returns (r: SdkLocalStorage)
    ensures Some(r) == LocalStorageUpdate(Some(c))
  {
    r := SdkLocalStorage(false);
    if c.useLocalStorage.Some? {
      r := r.(useLocalStorage := c.useLocalStorage.value);
    }
  }

  method FillNetwork(n: NetworkConfiguration) returns (r: SdkNetwork)
    ensures Some(r) == NetworkUpdate(Some(n))
  {
    r := SdkNetwork(None, None);
    if n.securityGroups.Some? {
      r := r.(securityGroups := PlainList(n.securityGroups));
    }
    if n.subnets.Some? {
      r := r.(subnets := PlainList(n.subnets));
    }
  }

  method FillStorage(c: StorageConfiguration) returns (r: Outcome<Option<SdkStorage>>)
    ensures r == StorageUpdate(Some(c))
  {
    var size :- NarrowField("storageSizeGiB", c.storageSizeGiB);
    return Ok(Some(SdkStorage(size)));
  }

  /** The template fields before the instance requirements. */
  method StartTemplateUpdate(t: InstanceLaunchTemplate) returns (f: SdkTemplateUpdate)
    ensures f == SdkTemplateUpdate(ReservationsUpdate(t.capacityReservations), t.profileArn, t.tagsPropagation,
                                   None, None, "", None, None)
  {
    f := SdkTemplateUpdate(None, None, None, None, None, "", None, None);
    if t.capacityReservations.Some? {
      var f2f3f0 := FillReservations(t.capacityReservations.value);
      f := f.(capacityReservations := Some(f2f3f0));
    }
    if t.profileArn.Some? {
      f := f.(profileArn := t.profileArn);
    }
    if t.tagsPropagation.Some? {
      f := f.(tagsPropagation := t.tagsPropagation);
    }
  }

  /** The template fields between the requirements and the storage. */
  method ContinueTemplateUpdate(t: InstanceLaunchTemplate, f0: SdkTemplateUpdate) returns (f: SdkTemplateUpdate)
    requires f0.localStorage.None? && f0.monitoring == "" && f0.network.None?
    ensures f == f0.(localStorage := LocalStorageUpdate(t.localStorage), monitoring := EnumString(t.monitoring),
                     network := NetworkUpdate(t.network))
  {
    f := f0;
    if t.localStorage.Some? {
      var f2f3f4 := FillLocalStorage(t.localStorage.value);
      f := f.(localStorage := Some(f2f3f4));
    }
    if t.monitoring.Some? {
      f := f.(monitoring := t.monitoring.value);
    }
    if t.network.Some? {
      var f2f3f6 := FillNetwork(t.network.value);
      f := f.(network := Some(f2f3f6));
    }
  }

  lemma NothingToSend()
    ensures RequirementsUpdate(None) == Ok(None) && StorageUpdate(None) == Ok(None)
    ensures OptimizationUpdate(None) == Ok(None) && TemplateUpdate(None) == Ok(None)
    ensures AutoRepairUpdate(None) == None
    ensures AsgpUpdate(None) == Ok(None) && MipUpdate(None) == Ok(None)
  {
  }

  method FillTemplate(t: InstanceLaunchTemplate) returns (r: Outcome<Option<SdkTemplateUpdate>>)
    ensures r == TemplateUpdate(Some(t))
  {
    hide RequirementsUpdate, StorageUpdate, ReservationsUpdate, LocalStorageUpdate, NetworkUpdate;
    NothingToSend();
    var f := StartTemplateUpdate(t);
    if t.requirements.Some? {
      var f2f3f3 :- FillRequirements(t.requirements.value);
      f := f.(requirements := f2f3f3);
    }
    f := ContinueTemplateUpdate(t, f);
    if t.storage.Some? {
      var f2f3f7 :- FillStorage(t.storage.value);
      f := f.(storage := f2f3f7);
    }
    return Ok(Some(f));
  }

  method FillAutoRepair(c: AutoRepairConfiguration) returns (r: SdkAutoRepair)
    ensures Some(r) == AutoRepairUpdate(Some(c))
  {
    r := SdkAutoRepair("");
    if c.actionsStatus.Some? {
      r := r.(actionsStatus := c.actionsStatus.value);
    }
  }

  method FillOptimization(c: InfrastructureOptimization) returns (r: Outcome<Option<SdkOptimization>>)
    ensures r == OptimizationUpdate(Some(c))
  {
    var after :- NarrowField("scaleInAfter", c.scaleInAfter);
    return Ok(Some(SdkOptimization(after)));
  }

  method FillMip(m: ManagedInstancesProvider) returns (r: Outcome<Option<SdkMipUpdate>>)
    ensures r == MipUpdate(Some(m))
  {
    hide AutoRepairUpdate, OptimizationUpdate, TemplateUpdate;
    NothingToSend();
    var f2 := SdkMipUpdate(None, None, None, None, "");
    if m.autoRepair.Some? {
      var f2f0 := FillAutoRepair(m.autoRepair.value);
      f2 := f2.(autoRepair := Some(f2f0));
    }
    if m.optimization.Some? {
      var f2f1 :- FillOptimization(m.optimization.value);
      f2 := f2.(optimization := f2f1);
    }
    if m.roleArn.Some? {
      f2 := f2.(roleArn := m.roleArn);
    }
    if m.template.Some? {
      var f2f3 :- FillTemplate(m.template.value);
      f2 := f2.(template := f2f3);
    }
    if m.propagateTags.Some? {
      f2 := f2.(propagateTags := m.propagateTags.value);
    }
    return Ok(Some(f2));
  }

  method NewUpdateRequestPayload(s: Spec) returns (r: Outcome<UpdateInput>)
    ensures r == UpdatePayload(s)
  {
    hide AsgpUpdate, MipUpdate;
    NothingToSend();
    var res := UpdateInput(None, None, None, None);
    if s.asgp.Some? {
      var f0 :- FillAsgp(s.asgp.value);
      res := res.(asgp := f0);
    }
    if s.cluster.Some? {
      res := res.(cluster := s.cluster);
    }
    if s.mip.Some? {
      var f2 :- FillMip(s.mip.value);
      res := res.(mip := f2);
    }
    if s.name.Some? {
      res := res.(name := s.name);
    }
    return Ok(res);
  }
}
