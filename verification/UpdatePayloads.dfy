/** What newUpdateRequestPayload of pkg/resource/capacity_provider/sdk.go sends, as functions read
    from that builder alone. Only the conversions of single values (an int64, an enum, a list of
    strings) are those of Payloads.dfy; that its structs agree with the create request is proved
    in PayloadLaws.dfy. */
module UpdatePayloads {
  import opened ApiTypes
  import opened Payloads

  function ScalingUpdate(o: Option<ManagedScaling>): Outcome<Option<SdkManagedScaling>> {
    match o
    case None => Ok(None)
    case Some(m) =>
      var warmup :- NarrowInt("instanceWarmupPeriod", m.instanceWarmupPeriod);
      var maxStep :- NarrowInt("maximumScalingStepSize", m.maximumScalingStepSize);
      var minStep :- NarrowInt("minimumScalingStepSize", m.minimumScalingStepSize);
      var status := EnumString(m.status);
      var target :- NarrowInt("targetCapacity", m.targetCapacity);
      Ok(Some(SdkManagedScaling(warmup, maxStep, minStep, status, target)))
  }

  /** The update of the group provider has no ARN. */
  function AsgpUpdate(o: Option<AutoScalingGroupProvider>): Outcome<Option<SdkAsgpUpdate>> {
    match o
    case None => Ok(None)
    case Some(a) =>
      var scaling :- ScalingUpdate(a.managedScaling);
      Ok(Some(SdkAsgpUpdate(EnumString(a.managedDraining), scaling, EnumString(a.managedTerminationProtection))))
  }

  function AutoRepairUpdate(o: Option<AutoRepairConfiguration>): Option<SdkAutoRepair> {
    match o
    case None => None
    case Some(c) => Some(SdkAutoRepair(EnumString(c.actionsStatus)))
  }

  function OptimizationUpdate(o: Option<InfrastructureOptimization>): Outcome<Option<SdkOptimization>> {
    match o
    case None => Ok(None)
    case Some(c) =>
      var after :- NarrowInt("scaleInAfter", c.scaleInAfter);
      Ok(Some(SdkOptimization(after)))
  }

  function ReservationsUpdate(o: Option<CapacityReservations>): Option<SdkCapacityReservations> {
    match o
    case None => None
    case Some(c) => Some(SdkCapacityReservations(c.reservationGroupArn, EnumString(c.reservationPreference)))
  }

  function RangeUpdate(o: Option<Range<int64>>): Outcome<Option<Range<int32>>> {
    match o
    case None => Ok(None)
    case Some(r) =>
      var max :- NarrowInt("max", r.max);
      var min :- NarrowInt("min", r.min);
      Ok(Some(Range(max, min)))
  }

  function FloatRangeUpdate(o: Option<Range<real>>): Option<Range<real>> {
    match o
    case None => None
    case Some(r) => Some(Range(r.max, r.min))
  }

  // The instance requirements, in field order, in three parts.

  function AcceleratorsUpdate(q: InstanceRequirements, f: SdkRequirements): Outcome<SdkRequirements> {
    var count :- RangeUpdate(q.acceleratorCount);
    var manufacturers :- EnumList(q.acceleratorManufacturers);
    var names :- EnumList(q.acceleratorNames);
    var memory :- RangeUpdate(q.acceleratorTotalMemoryMiB);
    var types :- EnumList(q.acceleratorTypes);
    Ok(f.(acceleratorCount := count,
          acceleratorManufacturers := manufacturers,
          acceleratorNames := names,
          acceleratorTotalMemoryMiB := memory,
          acceleratorTypes := types,
          allowedInstanceTypes := PlainList(q.allowedInstanceTypes),
          bareMetal := EnumString(q.bareMetal)))
  }

  function InstancesUpdate(q: InstanceRequirements, f: SdkRequirements): Outcome<SdkRequirements> {
    var bandwidth :- RangeUpdate(q.baselineEbsBandwidthMbps);
    var manufacturers :- EnumList(q.cpuManufacturers);
    var generations :- EnumList(q.instanceGenerations);
    var storageTypes :- EnumList(q.localStorageTypes);
    var maxSpot :- NarrowInt("maxSpotPriceAsPercentageOfOptimalOnDemandPrice", q.maxSpotPricePercentage);
    Ok(f.(baselineEbsBandwidthMbps := bandwidth,
          burstablePerformance := EnumString(q.burstablePerformance),
          cpuManufacturers := manufacturers,
          excludedInstanceTypes := PlainList(q.excludedInstanceTypes),
          instanceGenerations := generations,
          localStorage := EnumString(q.localStorage),
          localStorageTypes := storageTypes,
          maxSpotPricePercentage := maxSpot))
  }

  function CapacityUpdate(q: InstanceRequirements, f: SdkRequirements): Outcome<SdkRequirements> {
    var memory :- RangeUpdate(q.memoryMiB);
    var interfaces :- RangeUpdate(q.networkInterfaceCount);
    var onDemand :- NarrowInt("onDemandMaxPricePercentageOverLowestPrice", q.onDemandMaxPricePercentage);
    var spot :- NarrowInt("spotMaxPricePercentageOverLowestPrice", q.spotMaxPricePercentage);
    var vCpus :- RangeUpdate(q.vCpuCount);
    Ok(f.(memoryGiBPerVCpu := FloatRangeUpdate(q.memoryGiBPerVCpu),
          memoryMiB := memory,
          networkBandwidthGbps := FloatRangeUpdate(q.networkBandwidthGbps),
          networkInterfaceCount := interfaces,
          onDemandMaxPricePercentage := onDemand,
          requireHibernateSupport := q.requireHibernateSupport,
          spotMaxPricePercentage := spot,
          totalLocalStorageGB := FloatRangeUpdate(q.totalLocalStorageGB),
          vCpuCount := vCpus))
  }

  function RequirementsUpdate(o: Option<InstanceRequirements>): Outcome<Option<SdkRequirements>> {
    match o
    case None => Ok(None)
    case Some(q) =>
      var f1 :- AcceleratorsUpdate(q, EMPTY_REQUIREMENTS);
      var f2 :- InstancesUpdate(q, f1);
      var f3 :- CapacityUpdate(q, f2);
      Ok(Some(f3))
  }

  function LocalStorageUpdate(o: Option<LocalStorageConfiguration>): Option<SdkLocalStorage> {
    match o
    case None => None
    case Some(c) => Some(SdkLocalStorage(if c.useLocalStorage.Some? then c.useLocalStorage.value else false))
  }

  function NetworkUpdate(o: Option<NetworkConfiguration>): Option<SdkNetwork> {
    match o
    case None => None
    case Some(n) => Some(SdkNetwork(PlainList(n.securityGroups), PlainList(n.subnets)))
  }

  function StorageUpdate(o: Option<StorageConfiguration>): Outcome<Option<SdkStorage>> {
    match o
    case None => Ok(None)
    case Some(c) =>
      var size :- NarrowInt("storageSizeGiB", c.storageSizeGiB);
      Ok(Some(SdkStorage(size)))
  }

  /** The update of the template has no capacity option type and no FIPS setting. */
  function TemplateUpdate(o: Option<InstanceLaunchTemplate>): Outcome<Option<SdkTemplateUpdate>> {
    match o
    case None => Ok(None)
    case Some(t) =>
      var requirements :- RequirementsUpdate(t.requirements);
      var storage :- StorageUpdate(t.storage);
      Ok(Some(SdkTemplateUpdate(
           ReservationsUpdate(t.capacityReservations), t.profileArn, t.tagsPropagation, requirements,
           LocalStorageUpdate(t.localStorage), EnumString(t.monitoring), NetworkUpdate(t.network), storage)))
  }

  function MipUpdate(o: Option<ManagedInstancesProvider>): Outcome<Option<SdkMipUpdate>> {
    match o
    case None => Ok(None)
    case Some(m) =>
      var optimization :- OptimizationUpdate(m.optimization);
      var template :- TemplateUpdate(m.template);
      Ok(Some(SdkMipUpdate(AutoRepairUpdate(m.autoRepair), optimization, m.roleArn, template,
                           EnumString(m.propagateTags))))
  }

  /** newUpdateRequestPayload; the request has no tags. */
  function UpdatePayload(s: Spec): Outcome<UpdateInput> {
    var asgp :- AsgpUpdate(s.asgp);
    var mip :- MipUpdate(s.mip);
    Ok(UpdateInput(asgp, s.cluster, mip, s.name))
  }
}
