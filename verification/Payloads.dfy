/** The projections between a Spec and the SDK shapes in pkg/resource/capacity_provider/sdk.go,
    as functions: what newCreateRequestPayload sends, and what the read and create paths rebuild
    from a response. PayloadMethods.dfy builds the same payload step by step; the update
    request is in UpdatePayloads.dfy. */
module Payloads {
  import opened ApiTypes

  // ---- spec to SDK ----

  /** int64 to int32 with the range check; the error names the field. */
  function NarrowInt(field: string, v: Option<int64>): Outcome<Option<int32>> {
    if v.None? then Ok(None)
    else if v.value > MAX_INT32 || v.value < MIN_INT32 then Err(field)
    else Ok(Some(v.value))
  }

  function NarrowRange(r: Option<Range<int64>>): Outcome<Option<Range<int32>>> {
    if r.None? then Ok(None)
    else
      var max :- NarrowInt("max", r.value.max);
      var min :- NarrowInt("min", r.value.min);
      Ok(Some(Range(max, min)))
  }

  function EnumString(v: Option<string>): string {
    if v.None? then "" else v.value
  }

  /** aws.ToStringSlice, with a nil element read as "". */
  function PlainList(l: StringPList): Slice<string> {
    if l.None? then None
    else Some(seq(|l.value|, i requires 0 <= i < |l.value| => EnumString(l.value[i])))
  }

  /** A list of enum values, each element of which is dereferenced. */
  function EnumList(l: StringPList): Outcome<Slice<string>> {
    if NoNil(l) then Ok(PlainList(l)) else Panic
  }

  function TagOrEmpty(t: Option<Tag>): Tag {
    if t.None? then Tag(None, None) else t.value
  }

  /** The tags of a create request, each element of which is dereferenced. */
  function TagPayload(l: TagList): Outcome<Slice<Tag>> {
    if !NoNil(l) then Panic
    else if l.None? then Ok(None)
    else Ok(Some(seq(|l.value|, i requires 0 <= i < |l.value| => TagOrEmpty(l.value[i]))))
  }

  function ScalingPayload(o: Option<ManagedScaling>): Outcome<Option<SdkManagedScaling>> {
    if o.None? then Ok(None)
    else
      var m := o.value;
      var warmup :- NarrowInt("instanceWarmupPeriod", m.instanceWarmupPeriod);
      var maxStep :- NarrowInt("maximumScalingStepSize", m.maximumScalingStepSize);
      var minStep :- NarrowInt("minimumScalingStepSize", m.minimumScalingStepSize);
      var target :- NarrowInt("targetCapacity", m.targetCapacity);
      Ok(Some(SdkManagedScaling(warmup, maxStep, minStep, EnumString(m.status), target)))
  }

  const EMPTY_REQUIREMENTS := SdkRequirements(
    None, None, None, None, None, None, "", None, "", None, None, None, "", None, None, None, None, None,
    None, None, None, None, None, None)

  // The requirements are filled in in three parts, in field order.

  function AddAccelerators(q: InstanceRequirements, f: SdkRequirements): Outcome<SdkRequirements> {
    var count :- NarrowRange(q.acceleratorCount);
    var manufacturers :- EnumList(q.acceleratorManufacturers);
    var names :- EnumList(q.acceleratorNames);
    var memory :- NarrowRange(q.acceleratorTotalMemoryMiB);
    var types :- EnumList(q.acceleratorTypes);
    Ok(f.(acceleratorCount := count, acceleratorManufacturers := manufacturers, acceleratorNames := names,
          acceleratorTotalMemoryMiB := memory, acceleratorTypes := types,
          allowedInstanceTypes := PlainList(q.allowedInstanceTypes), bareMetal := EnumString(q.bareMetal)))
  }

  function AddInstances(q: InstanceRequirements, f: SdkRequirements): Outcome<SdkRequirements> {
    var bandwidth :- NarrowRange(q.baselineEbsBandwidthMbps);
    var manufacturers :- EnumList(q.cpuManufacturers);
    var generations :- EnumList(q.instanceGenerations);
    var storageTypes :- EnumList(q.localStorageTypes);
    var maxSpot :- NarrowInt("maxSpotPriceAsPercentageOfOptimalOnDemandPrice", q.maxSpotPricePercentage);
    Ok(f.(baselineEbsBandwidthMbps := bandwidth, burstablePerformance := EnumString(q.burstablePerformance),
          cpuManufacturers := manufacturers, excludedInstanceTypes := PlainList(q.excludedInstanceTypes),
          instanceGenerations := generations, localStorage := EnumString(q.localStorage),
          localStorageTypes := storageTypes, maxSpotPricePercentage := maxSpot))
  }

  function AddCapacity(q: InstanceRequirements, f: SdkRequirements): Outcome<SdkRequirements> {
    var memory :- NarrowRange(q.memoryMiB);
    var interfaces :- NarrowRange(q.networkInterfaceCount);
    var onDemand :- NarrowInt("onDemandMaxPricePercentageOverLowestPrice", q.onDemandMaxPricePercentage);
    var spot :- NarrowInt("spotMaxPricePercentageOverLowestPrice", q.spotMaxPricePercentage);
    var vCpus :- NarrowRange(q.vCpuCount);
    Ok(f.(memoryGiBPerVCpu := q.memoryGiBPerVCpu, memoryMiB := memory,
          networkBandwidthGbps := q.networkBandwidthGbps, networkInterfaceCount := interfaces,
          onDemandMaxPricePercentage := onDemand, requireHibernateSupport := q.requireHibernateSupport,
          spotMaxPricePercentage := spot, totalLocalStorageGB := q.totalLocalStorageGB, vCpuCount := vCpus))
  }

  function RequirementsPayload(o: Option<InstanceRequirements>): Outcome<Option<SdkRequirements>> {
    if o.None? then Ok(None)
    else
      var f1 :- AddAccelerators(o.value, EMPTY_REQUIREMENTS);
      var f2 :- AddInstances(o.value, f1);
      var f3 :- AddCapacity(o.value, f2);
      Ok(Some(f3))
  }

  function ReservationsPayload(o: Option<CapacityReservations>): Option<SdkCapacityReservations> {
    if o.None? then None
    else Some(SdkCapacityReservations(o.value.reservationGroupArn, EnumString(o.value.reservationPreference)))
  }

  function LocalStoragePayload(o: Option<LocalStorageConfiguration>): Option<SdkLocalStorage> {
    if o.None? then None
    else Some(SdkLocalStorage(o.value.useLocalStorage.Some? && o.value.useLocalStorage.value))
  }

  function NetworkPayload(o: Option<NetworkConfiguration>): Option<SdkNetwork> {
    if o.None? then None else Some(SdkNetwork(PlainList(o.value.securityGroups), PlainList(o.value.subnets)))
  }

  function StoragePayload(o: Option<StorageConfiguration>): Outcome<Option<SdkStorage>> {
    if o.None? then Ok(None)
    else
      var size :- NarrowInt("storageSizeGiB", o.value.storageSizeGiB);
      Ok(Some(SdkStorage(size)))
  }

  function OptimizationPayload(o: Option<InfrastructureOptimization>): Outcome<Option<SdkOptimization>> {
    if o.None? then Ok(None)
    else
      var after :- NarrowInt("scaleInAfter", o.value.scaleInAfter);
      Ok(Some(SdkOptimization(after)))
  }

  function AutoRepairPayload(o: Option<AutoRepairConfiguration>): Option<SdkAutoRepair> {
    if o.None? then None else Some(SdkAutoRepair(EnumString(o.value.actionsStatus)))
  }

  function TemplatePayload(o: Option<InstanceLaunchTemplate>): Outcome<Option<SdkTemplate>> {
    if o.None? then Ok(None)
    else
      var t := o.value;
      var requirements :- RequirementsPayload(t.requirements);
      var storage :- StoragePayload(t.storage);
      Ok(Some(SdkTemplate(
           EnumString(t.capacityOptionType), ReservationsPayload(t.capacityReservations),
           t.profileArn, t.fipsEnabled, t.tagsPropagation, requirements,
           LocalStoragePayload(t.localStorage), EnumString(t.monitoring),
           NetworkPayload(t.network), storage)))
  }

  function MipPayload(o: Option<ManagedInstancesProvider>): Outcome<Option<SdkMip>> {
    if o.None? then Ok(None)
    else
      var m := o.value;
      var optimization :- OptimizationPayload(m.optimization);
      var template :- TemplatePayload(m.template);
      Ok(Some(SdkMip(AutoRepairPayload(m.autoRepair), optimization, m.roleArn, template,
                     EnumString(m.propagateTags))))
  }

  function AsgpPayload(o: Option<AutoScalingGroupProvider>): Outcome<Option<SdkAsgp>> {
    if o.None? then Ok(None)
    else
      var a := o.value;
      var scaling :- ScalingPayload(a.managedScaling);
      Ok(Some(SdkAsgp(a.arn, EnumString(a.managedDraining), scaling, EnumString(a.managedTerminationProtection))))
  }

  /** newCreateRequestPayload. */
  function CreatePayload(s: Spec): Outcome<CreateInput> {
    var asgp :- AsgpPayload(s.asgp);
    var mip :- MipPayload(s.mip);
    var tags :- TagPayload(s.tags);
    Ok(CreateInput(asgp, s.cluster, mip, s.name, tags))
  }

  // ---- SDK to spec ----

  function Widen(v: Option<int32>): Option<int64> {
    if v.None? then None else Some(v.value)
  }

  function RangeFromSdk(r: Option<Range<int32>>): Option<Range<int64>> {
    if r.None? then None else Some(Range(Widen(r.value.max), Widen(r.value.min)))
  }

  function StringFromEnum(s: string): Option<string> {
    if s == "" then None else Some(s)
  }

  function ListFromSdk<T>(l: Slice<T>): Slice<Option<T>> {
    if l.None? then None
    else Some(seq(|l.value|, i requires 0 <= i < |l.value| => Some(l.value[i])))
  }

  function ScalingFromSdk(o: Option<SdkManagedScaling>): Option<ManagedScaling> {
    if o.None? then None
    else
      var m := o.value;
      Some(ManagedScaling(Widen(m.instanceWarmupPeriod), Widen(m.maximumScalingStepSize),
                          Widen(m.minimumScalingStepSize), StringFromEnum(m.status), Widen(m.targetCapacity)))
  }

  function RequirementsFromSdk(o: Option<SdkRequirements>): Option<InstanceRequirements> {
    if o.None? then None
    else
      var q := o.value;
      Some(InstanceRequirements(
             RangeFromSdk(q.acceleratorCount), ListFromSdk(q.acceleratorManufacturers),
             ListFromSdk(q.acceleratorNames), RangeFromSdk(q.acceleratorTotalMemoryMiB),
             ListFromSdk(q.acceleratorTypes), ListFromSdk(q.allowedInstanceTypes),
             StringFromEnum(q.bareMetal), RangeFromSdk(q.baselineEbsBandwidthMbps),
             StringFromEnum(q.burstablePerformance), ListFromSdk(q.cpuManufacturers),
             ListFromSdk(q.excludedInstanceTypes), ListFromSdk(q.instanceGenerations),
             StringFromEnum(q.localStorage), ListFromSdk(q.localStorageTypes), Widen(q.maxSpotPricePercentage),
             q.memoryGiBPerVCpu, RangeFromSdk(q.memoryMiB), q.networkBandwidthGbps,
             RangeFromSdk(q.networkInterfaceCount), Widen(q.onDemandMaxPricePercentage),
             q.requireHibernateSupport, Widen(q.spotMaxPricePercentage), q.totalLocalStorageGB,
             RangeFromSdk(q.vCpuCount)))
  }

  function ReservationsFromSdk(o: Option<SdkCapacityReservations>): Option<CapacityReservations> {
    if o.None? then None
    else Some(CapacityReservations(o.value.reservationGroupArn, StringFromEnum(o.value.reservationPreference)))
  }

  function LocalStorageFromSdk(o: Option<SdkLocalStorage>): Option<LocalStorageConfiguration> {
    if o.None? then None else Some(LocalStorageConfiguration(Some(o.value.useLocalStorage)))
  }

  function StorageFromSdk(o: Option<SdkStorage>): Option<StorageConfiguration> {
    if o.None? then None else Some(StorageConfiguration(Widen(o.value.storageSizeGiB)))
  }

  /** Rebuilt without the reference lists. */
  function NetworkFromSdk(o: Option<SdkNetwork>): Option<NetworkConfiguration> {
    if o.None? then None
    else Some(NetworkConfiguration(None, ListFromSdk(o.value.securityGroups), None, ListFromSdk(o.value.subnets)))
  }

  function TemplateFromSdk(o: Option<SdkTemplate>): Option<InstanceLaunchTemplate> {
    if o.None? then None
    else
      var t := o.value;
      Some(InstanceLaunchTemplate(
             StringFromEnum(t.capacityOptionType), ReservationsFromSdk(t.capacityReservations),
             t.profileArn, None, t.fipsEnabled, t.tagsPropagation,
             RequirementsFromSdk(t.requirements), LocalStorageFromSdk(t.localStorage),
             StringFromEnum(t.monitoring), NetworkFromSdk(t.network), StorageFromSdk(t.storage)))
  }

  function AutoRepairFromSdk(o: Option<SdkAutoRepair>): Option<AutoRepairConfiguration> {
    if o.None? then None else Some(AutoRepairConfiguration(StringFromEnum(o.value.actionsStatus)))
  }

  function OptimizationFromSdk(o: Option<SdkOptimization>): Option<InfrastructureOptimization> {
    if o.None? then None else Some(InfrastructureOptimization(Widen(o.value.scaleInAfter)))
  }

  function MipFromSdk(o: Option<SdkMip>): Option<ManagedInstancesProvider> {
    if o.None? then None
    else
      var m := o.value;
      Some(ManagedInstancesProvider(
             AutoRepairFromSdk(m.autoRepair), OptimizationFromSdk(m.optimization),
             m.roleArn, None, TemplateFromSdk(m.template), StringFromEnum(m.propagateTags)))
  }

  function AsgpFromSdk(o: Option<SdkAsgp>): Option<AutoScalingGroupProvider> {
    if o.None? then None
    else
      var a := o.value;
      Some(AutoScalingGroupProvider(a.arn, None, StringFromEnum(a.managedDraining),
                                    ScalingFromSdk(a.managedScaling),
                                    StringFromEnum(a.managedTerminationProtection)))
  }

  /** The spec after a response was merged into s; only ClusterRef survives from s. */
  function SpecFromSdk(s: Spec, e: SdkCapacityProvider): Spec {
    Spec(AsgpFromSdk(e.asgp), e.cluster, s.clusterRef, MipFromSdk(e.mip), e.name, ListFromSdk(e.tags))
  }
}
