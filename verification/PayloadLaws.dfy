/** Laws of the payload builders and of the way back from a response. */
module PayloadLaws {
  import opened ApiTypes
  import opened Payloads
  import opened UpdatePayloads

  // ---- the builders give the same verdict ----

  /** One thing a builder can stumble over, in the order in which it meets them. */
  datatype Check = Fits(field: string, v: Option<int64>) | NoNilIn(l: StringPList) | NoNilTags(tags: TagList)

  function Result(c: Check): Outcome<()> {
    match c
    case Fits(f, v) => if v.Some? && !(MIN_INT32 <= v.value <= MAX_INT32) then Err(f) else Ok(())
    case NoNilIn(l) => if NoNil(l) then Ok(()) else Panic
    case NoNilTags(l) => if NoNil(l) then Ok(()) else Panic
  }

  /** The first check that does not pass. */
  function Verdict(cs: seq<Check>): Outcome<()> {
    if cs == [] then Ok(())
    else if Result(cs[0]).Ok? then Verdict(cs[1..])
    else Result(cs[0])
  }

  function RangeChecks(r: Option<Range<int64>>): seq<Check> {
    if r.None? then [] else [Fits("max", r.value.max)] + [Fits("min", r.value.min)]
  }

  function ScalingChecks(m: ManagedScaling): seq<Check> {
    [Fits("instanceWarmupPeriod", m.instanceWarmupPeriod)]
    + ([Fits("maximumScalingStepSize", m.maximumScalingStepSize)]
       + ([Fits("minimumScalingStepSize", m.minimumScalingStepSize)]
          + [Fits("targetCapacity", m.targetCapacity)]))
  }

  function AcceleratorChecks(q: InstanceRequirements): seq<Check> {
    RangeChecks(q.acceleratorCount)
    + ([NoNilIn(q.acceleratorManufacturers)]
       + ([NoNilIn(q.acceleratorNames)]
          + (RangeChecks(q.acceleratorTotalMemoryMiB)
             + [NoNilIn(q.acceleratorTypes)])))
  }

  function InstanceChecks(q: InstanceRequirements): seq<Check> {
    RangeChecks(q.baselineEbsBandwidthMbps)
    + ([NoNilIn(q.cpuManufacturers)]
       + ([NoNilIn(q.instanceGenerations)]
          + ([NoNilIn(q.localStorageTypes)]
             + [Fits("maxSpotPriceAsPercentageOfOptimalOnDemandPrice", q.maxSpotPricePercentage)])))
  }

  function CapacityChecks(q: InstanceRequirements): seq<Check> {
    RangeChecks(q.memoryMiB)
    + (RangeChecks(q.networkInterfaceCount)
       + ([Fits("onDemandMaxPricePercentageOverLowestPrice", q.onDemandMaxPricePercentage)]
          + ([Fits("spotMaxPricePercentageOverLowestPrice", q.spotMaxPricePercentage)]
             + RangeChecks(q.vCpuCount))))
  }

  function RequirementsChecks(o: Option<InstanceRequirements>): seq<Check> {
    if o.None? then [] else AcceleratorChecks(o.value) + (InstanceChecks(o.value) + CapacityChecks(o.value))
  }

  function StorageChecks(o: Option<StorageConfiguration>): seq<Check> {
    if o.None? then [] else [Fits("storageSizeGiB", o.value.storageSizeGiB)]
  }

  function OptimizationChecks(o: Option<InfrastructureOptimization>): seq<Check> {
    if o.None? then [] else [Fits("scaleInAfter", o.value.scaleInAfter)]
  }

  function TemplateChecks(o: Option<InstanceLaunchTemplate>): seq<Check> {
    if o.None? then [] else RequirementsChecks(o.value.requirements) + StorageChecks(o.value.storage)
  }

  function MipChecks(o: Option<ManagedInstancesProvider>): seq<Check> {
    if o.None? then [] else OptimizationChecks(o.value.optimization) + TemplateChecks(o.value.template)
  }

  function AsgpChecks(o: Option<AutoScalingGroupProvider>): seq<Check> {
    if o.None? || o.value.managedScaling.None? then [] else ScalingChecks(o.value.managedScaling.value)
  }

  /** What both builders check of a spec. */
  function SpecChecks(s: Spec): seq<Check> {
    AsgpChecks(s.asgp) + MipChecks(s.mip)
  }

  function Fate<T>(o: Outcome<T>): Outcome<()> {
    match o
    case Ok(_) => Ok(())
    case Err(f) => Err(f)
    case Panic => Panic
  }

  lemma {:induction false} VerdictOfConcat(a: seq<Check>, b: seq<Check>)
    ensures Verdict(a + b) == if Verdict(a).Ok? then Verdict(b) else Verdict(a)
  {
    if a == [] {
      assert a + b == b;
    } else {
      assert (a + b)[1..] == a[1..] + b;
      VerdictOfConcat(a[1..], b);
    }
  }

  lemma VerdictOfOne(c: Check)
    ensures Verdict([c]) == Result(c)
  {
  }

  lemma RangeFate(r: Option<Range<int64>>)
    ensures Fate(NarrowRange(r)) == Verdict(RangeChecks(r))
  {
    if r.Some? {
      VerdictOfConcat([Fits("max", r.value.max)], [Fits("min", r.value.min)]);
    }
  }

  lemma ScalingFate(m: ManagedScaling)
    ensures Fate(ScalingPayload(Some(m))) == Verdict(ScalingChecks(m))
  {
    var c1 := [Fits("instanceWarmupPeriod", m.instanceWarmupPeriod)];
    var c2 := [Fits("maximumScalingStepSize", m.maximumScalingStepSize)];
    var c3 := [Fits("minimumScalingStepSize", m.minimumScalingStepSize)];
    var c4 := [Fits("targetCapacity", m.targetCapacity)];
    VerdictOfConcat(c1, c2 + (c3 + c4));
    VerdictOfConcat(c2, c3 + c4);
    VerdictOfConcat(c3, c4);
    VerdictOfOne(c1[0]);
    VerdictOfOne(c2[0]);
    VerdictOfOne(c3[0]);
    VerdictOfOne(c4[0]);
  }

  /** First of two outcomes that is not Ok. */
  function And(a: Outcome<()>, b: Outcome<()>): Outcome<()> {
    if a.Ok? then b else a
  }

  lemma VerdictOfFive(a: seq<Check>, b: seq<Check>, c: seq<Check>, d: seq<Check>, e: seq<Check>)
    ensures Verdict(a + (b + (c + (d + e))))
         == And(Verdict(a), And(Verdict(b), And(Verdict(c), And(Verdict(d), Verdict(e)))))
  {
    VerdictOfConcat(a, b + (c + (d + e)));
    VerdictOfConcat(b, c + (d + e));
    VerdictOfConcat(c, d + e);
    VerdictOfConcat(d, e);
  }

  lemma AcceleratorFate(q: InstanceRequirements, f: SdkRequirements)
    ensures Fate(AddAccelerators(q, f)) == Verdict(AcceleratorChecks(q))
  {
    RangeFate(q.acceleratorCount);
    RangeFate(q.acceleratorTotalMemoryMiB);
    VerdictOfFive(RangeChecks(q.acceleratorCount), [NoNilIn(q.acceleratorManufacturers)],
                  [NoNilIn(q.acceleratorNames)], RangeChecks(q.acceleratorTotalMemoryMiB),
                  [NoNilIn(q.acceleratorTypes)]);
    VerdictOfOne(NoNilIn(q.acceleratorManufacturers));
    VerdictOfOne(NoNilIn(q.acceleratorNames));
    VerdictOfOne(NoNilIn(q.acceleratorTypes));
  }

  lemma InstanceFate(q: InstanceRequirements, f: SdkRequirements)
    ensures Fate(AddInstances(q, f)) == Verdict(InstanceChecks(q))
  {
    var last := Fits("maxSpotPriceAsPercentageOfOptimalOnDemandPrice", q.maxSpotPricePercentage);
    RangeFate(q.baselineEbsBandwidthMbps);
    VerdictOfFive(RangeChecks(q.baselineEbsBandwidthMbps), [NoNilIn(q.cpuManufacturers)],
                  [NoNilIn(q.instanceGenerations)], [NoNilIn(q.localStorageTypes)], [last]);
    VerdictOfOne(NoNilIn(q.cpuManufacturers));
    VerdictOfOne(NoNilIn(q.instanceGenerations));
    VerdictOfOne(NoNilIn(q.localStorageTypes));
    VerdictOfOne(last);
  }

  lemma CapacityFate(q: InstanceRequirements, f: SdkRequirements)
    ensures Fate(AddCapacity(q, f)) == Verdict(CapacityChecks(q))
  {
    var onDemand := Fits("onDemandMaxPricePercentageOverLowestPrice", q.onDemandMaxPricePercentage);
    var spot := Fits("spotMaxPricePercentageOverLowestPrice", q.spotMaxPricePercentage);
    RangeFate(q.memoryMiB);
    RangeFate(q.networkInterfaceCount);
    RangeFate(q.vCpuCount);
    VerdictOfFive(RangeChecks(q.memoryMiB), RangeChecks(q.networkInterfaceCount), [onDemand], [spot],
                  RangeChecks(q.vCpuCount));
    VerdictOfOne(onDemand);
    VerdictOfOne(spot);
  }

  lemma RequirementsFate(o: Option<InstanceRequirements>)
    ensures Fate(RequirementsPayload(o)) == Verdict(RequirementsChecks(o))
  {
    hide AddAccelerators, AddInstances, AddCapacity, AcceleratorChecks, InstanceChecks, CapacityChecks;
    if o.Some? {
      var q := o.value;
      VerdictOfConcat(AcceleratorChecks(q), InstanceChecks(q) + CapacityChecks(q));
      VerdictOfConcat(InstanceChecks(q), CapacityChecks(q));
      var r1 := AddAccelerators(q, EMPTY_REQUIREMENTS);
      AcceleratorFate(q, EMPTY_REQUIREMENTS);
      if r1.Ok? {
        InstanceFate(q, r1.value);
        var r2 := AddInstances(q, r1.value);
        if r2.Ok? {
          CapacityFate(q, r2.value);
        }
      }
    }
  }

  lemma StorageFate(o: Option<StorageConfiguration>)
    ensures Fate(StoragePayload(o)) == Verdict(StorageChecks(o))
  {
  }

  lemma OptimizationFate(o: Option<InfrastructureOptimization>)
    ensures Fate(OptimizationPayload(o)) == Verdict(OptimizationChecks(o))
  {
  }

  lemma TemplateFate(o: Option<InstanceLaunchTemplate>)
    ensures Fate(TemplatePayload(o)) == Verdict(TemplateChecks(o))
  {
    hide RequirementsPayload, RequirementsChecks, StoragePayload, StorageChecks;
    hide ReservationsPayload, LocalStoragePayload, NetworkPayload;
    if o.Some? {
      RequirementsFate(o.value.requirements);
      StorageFate(o.value.storage);
      VerdictOfConcat(RequirementsChecks(o.value.requirements), StorageChecks(o.value.storage));
    }
  }

  lemma MipFate(o: Option<ManagedInstancesProvider>)
    ensures Fate(MipPayload(o)) == Verdict(MipChecks(o))
  {
    hide TemplatePayload, TemplateChecks, OptimizationPayload, OptimizationChecks;
    if o.Some? {
      TemplateFate(o.value.template);
      OptimizationFate(o.value.optimization);
      VerdictOfConcat(OptimizationChecks(o.value.optimization), TemplateChecks(o.value.template));
    }
  }

  lemma AsgpFate(o: Option<AutoScalingGroupProvider>)
    ensures Fate(AsgpPayload(o)) == Verdict(AsgpChecks(o))
  {
    if o.Some? && o.value.managedScaling.Some? {
      ScalingFate(o.value.managedScaling.value);
    }
  }

  lemma {:induction false} VerdictIsErrIff(cs: seq<Check>)
    ensures Verdict(cs).Ok? <==> forall c :: c in cs ==> Result(c).Ok?
    ensures Verdict(cs).Ok? ==> Verdict(cs) == Ok(())
    ensures (forall c :: c in cs ==> !Result(c).Panic?) ==>
              (Verdict(cs).Err? <==> exists c :: c in cs && Result(c).Err?)
  {
    if cs != [] {
      VerdictIsErrIff(cs[1..]);
      assert forall c :: c in cs <==> c == cs[0] || c in cs[1..];
    }
  }

  // What an update request carries of a create request.

  function CommonAsgp(o: Option<SdkAsgp>): Option<SdkAsgpUpdate> {
    if o.None? then None
    else Some(SdkAsgpUpdate(o.value.managedDraining, o.value.managedScaling, o.value.managedTerminationProtection))
  }

  function CommonTemplate(o: Option<SdkTemplate>): Option<SdkTemplateUpdate> {
    if o.None? then None
    else
      var t := o.value;
      Some(SdkTemplateUpdate(t.capacityReservations, t.profileArn, t.tagsPropagation, t.requirements,
                             t.localStorage, t.monitoring, t.network, t.storage))
  }

  function CommonMip(o: Option<SdkMip>): Option<SdkMipUpdate> {
    if o.None? then None
    else
      var m := o.value;
      Some(SdkMipUpdate(m.autoRepair, m.optimization, m.roleArn, CommonTemplate(m.template), m.propagateTags))
  }

  function Common(c: CreateInput): UpdateInput {
    UpdateInput(CommonAsgp(c.asgp), c.cluster, CommonMip(c.mip), c.name)
  }

  // The two builders struct by struct.

  lemma ScalingAgree(o: Option<ManagedScaling>)
    ensures ScalingUpdate(o) == ScalingPayload(o)
  {
  }

  lemma AutoRepairAgree(o: Option<AutoRepairConfiguration>)
    ensures AutoRepairUpdate(o) == AutoRepairPayload(o)
  {
  }

  lemma OptimizationAgree(o: Option<InfrastructureOptimization>)
    ensures OptimizationUpdate(o) == OptimizationPayload(o)
  {
  }

  lemma ReservationsAgree(o: Option<CapacityReservations>)
    ensures ReservationsUpdate(o) == ReservationsPayload(o)
  {
  }

  lemma RangeAgree(r: Option<Range<int64>>)
    ensures RangeUpdate(r) == NarrowRange(r)
  {
  }

  lemma AcceleratorsAgree(q: InstanceRequirements, f: SdkRequirements)
    ensures AcceleratorsUpdate(q, f) == AddAccelerators(q, f)
  {
    hide RangeUpdate, NarrowRange, EnumList;
    RangeAgree(q.acceleratorCount);
    RangeAgree(q.acceleratorTotalMemoryMiB);
  }

  lemma InstancesAgree(q: InstanceRequirements, f: SdkRequirements)
    ensures InstancesUpdate(q, f) == AddInstances(q, f)
  {
    hide RangeUpdate, NarrowRange, EnumList;
    RangeAgree(q.baselineEbsBandwidthMbps);
  }

  lemma CapacityAgree(q: InstanceRequirements, f: SdkRequirements)
    ensures CapacityUpdate(q, f) == AddCapacity(q, f)
  {
    hide RangeUpdate, NarrowRange, NarrowInt;
    RangeAgree(q.memoryMiB);
    RangeAgree(q.networkInterfaceCount);
    RangeAgree(q.vCpuCount);
  }

  lemma RequirementsAgree(o: Option<InstanceRequirements>)
    ensures RequirementsUpdate(o) == RequirementsPayload(o)
  {
    hide AcceleratorsUpdate, InstancesUpdate, CapacityUpdate, AddAccelerators, AddInstances, AddCapacity;
    if o.Some? {
      var q := o.value;
      AcceleratorsAgree(q, EMPTY_REQUIREMENTS);
      var r1 := AddAccelerators(q, EMPTY_REQUIREMENTS);
      if r1.Ok? {
        InstancesAgree(q, r1.value);
        var r2 := AddInstances(q, r1.value);
        if r2.Ok? {
          CapacityAgree(q, r2.value);
        }
      }
    }
  }

  lemma LocalStorageAgree(o: Option<LocalStorageConfiguration>)
    ensures LocalStorageUpdate(o) == LocalStoragePayload(o)
  {
  }

  lemma NetworkAgree(o: Option<NetworkConfiguration>)
    ensures NetworkUpdate(o) == NetworkPayload(o)
  {
  }

  lemma StorageAgree(o: Option<StorageConfiguration>)
    ensures StorageUpdate(o) == StoragePayload(o)
  {
  }

  /** One of two requests that end in the same way, and the other's common part if both succeed. */
  ghost predicate Agree<T(!new), U(!new)>(create: Outcome<T>, update: Outcome<U>, common: T -> U) {
    Fate(update) == Fate(create) && (create.Ok? ==> update == Ok(common(create.value)))
  }

  lemma AsgpAgrees(o: Option<AutoScalingGroupProvider>)
    ensures Agree(AsgpPayload(o), AsgpUpdate(o), CommonAsgp)
  {
    hide ScalingUpdate, ScalingPayload;
    if o.Some? {
      ScalingAgree(o.value.managedScaling);
    }
  }

  lemma TemplateAgrees(o: Option<InstanceLaunchTemplate>)
    ensures Agree(TemplatePayload(o), TemplateUpdate(o), CommonTemplate)
  {
    hide RequirementsUpdate, RequirementsPayload, StorageUpdate, StoragePayload, ReservationsUpdate;
    hide ReservationsPayload, LocalStorageUpdate, LocalStoragePayload, NetworkUpdate, NetworkPayload;
    if o.Some? {
      RequirementsAgree(o.value.requirements);
      StorageAgree(o.value.storage);
      ReservationsAgree(o.value.capacityReservations);
      LocalStorageAgree(o.value.localStorage);
      NetworkAgree(o.value.network);
    }
  }

  lemma MipAgrees(o: Option<ManagedInstancesProvider>)
    ensures Agree(MipPayload(o), MipUpdate(o), CommonMip)
  {
    hide TemplatePayload, TemplateUpdate, CommonTemplate, OptimizationUpdate, OptimizationPayload;
    hide AutoRepairUpdate, AutoRepairPayload;
    if o.Some? {
      TemplateAgrees(o.value.template);
      OptimizationAgree(o.value.optimization);
      AutoRepairAgree(o.value.autoRepair);
    }
  }

  /** Each builder stops at the first check of the spec that does not pass; the create
      builder goes on to the tags, which the update request does not carry. */
  lemma BuilderVerdicts(s: Spec)
    ensures Fate(UpdatePayload(s)) == Verdict(SpecChecks(s))
    ensures Fate(CreatePayload(s)) == And(Verdict(SpecChecks(s)), Result(NoNilTags(s.tags)))
  {
    hide AsgpPayload, AsgpUpdate, MipPayload, MipUpdate, AsgpChecks, MipChecks, CommonAsgp, CommonMip;
    AsgpFate(s.asgp);
    AsgpAgrees(s.asgp);
    MipFate(s.mip);
    MipAgrees(s.mip);
    VerdictOfConcat(AsgpChecks(s.asgp), MipChecks(s.mip));
  }

  lemma FateMeans<T>(o: Outcome<T>)
    ensures Fate(o).Ok? <==> o.Ok?
    ensures forall f :: Fate(o) == Err(f) <==> o == Err(f)
    ensures Fate(o).Err? <==> o.Err?
    ensures Fate(o).Panic? <==> o.Panic?
  {
  }

  /** The builders give the same verdict, with the same first error, on every spec but
      one that passes every shared check and has a nil tag: there create alone panics.
      Whatever the tags, update sends what create would without them, in every field both carry. */
  lemma BuildersAgree(s: Spec)
    ensures Fate(CreatePayload(s)) == Fate(UpdatePayload(s))
       <==> NoNil(s.tags) || exists c :: c in SpecChecks(s) && !Result(c).Ok?
    ensures forall f :: CreatePayload(s) == Err(f) <==> UpdatePayload(s) == Err(f)
    ensures Agree(CreatePayload(s.(tags := None)), UpdatePayload(s), Common)
    ensures CreatePayload(s).Ok? ==> CreatePayload(s.(tags := None)) == Ok(CreatePayload(s).value.(tags := None))
  {
    BuilderVerdicts(s);
    VerdictIsErrIff(SpecChecks(s));
    FateMeans(CreatePayload(s));
    FateMeans(UpdatePayload(s));
    CommonPartsSent(s);
    hide CreatePayload, UpdatePayload, SpecChecks, Verdict, Fate;
  }

  lemma CommonPartsSent(s: Spec)
    ensures Agree(CreatePayload(s.(tags := None)), UpdatePayload(s), Common)
    ensures CreatePayload(s).Ok? ==> CreatePayload(s.(tags := None)) == Ok(CreatePayload(s).value.(tags := None))
  {
    hide AsgpPayload, AsgpUpdate, MipPayload, MipUpdate, CommonAsgp, CommonMip;
    AsgpAgrees(s.asgp);
    MipAgrees(s.mip);
  }

  /** A spec on which the verdicts differ: nothing but one nil tag. */
  lemma NilTagDividesBuilders()
    ensures var s := Spec(None, None, None, None, None, Some([None]));
            CreatePayload(s) == Panic && UpdatePayload(s) == Ok(UpdateInput(None, None, None, None))
  {
    var tags: TagList := Some([None]);
    assert Elements(tags)[0].None?;
  }

  predicate OutOfRange(c: Check) {
    c.Fits? && c.v.Some? && !(MIN_INT32 <= c.v.value <= MAX_INT32)
  }

  /** Without nil list elements, both fail exactly when a present number is outside int32. */
  lemma BuildersFailIffOutOfRange(s: Spec)
    requires forall c :: c in SpecChecks(s) ==> !Result(c).Panic?
    ensures UpdatePayload(s).Err? <==> exists c :: c in SpecChecks(s) && OutOfRange(c)
    ensures CreatePayload(s).Err? <==> exists c :: c in SpecChecks(s) && OutOfRange(c)
  {
    hide CreatePayload, UpdatePayload, SpecChecks, Verdict, Fate;
    BuilderVerdicts(s);
    VerdictIsErrIff(SpecChecks(s));
    FateMeans(CreatePayload(s));
    FateMeans(UpdatePayload(s));
    assert forall c :: Result(c).Err? <==> OutOfRange(c);
  }

  // ---- there and back ----

  function NormalEnum(v: Option<string>): Option<string> {
    if v == Some("") then None else v
  }

  function NormalList(l: StringPList): StringPList {
    if l.None? then None
    else Some(seq(|l.value|, i requires 0 <= i < |l.value| => if l.value[i].None? then Some("") else l.value[i]))
  }

  function NormalScaling(o: Option<ManagedScaling>): Option<ManagedScaling> {
    if o.None? then None else Some(o.value.(status := NormalEnum(o.value.status)))
  }

  function NormalRequirements(o: Option<InstanceRequirements>): Option<InstanceRequirements> {
    if o.None? then None
    else
      var q := o.value;
      Some(q.(allowedInstanceTypes := NormalList(q.allowedInstanceTypes),
              excludedInstanceTypes := NormalList(q.excludedInstanceTypes),
              bareMetal := NormalEnum(q.bareMetal),
              burstablePerformance := NormalEnum(q.burstablePerformance),
              localStorage := NormalEnum(q.localStorage)))
  }

  function NormalNetwork(o: Option<NetworkConfiguration>): Option<NetworkConfiguration> {
    if o.None? then None
    else Some(NetworkConfiguration(None, NormalList(o.value.securityGroups), None, NormalList(o.value.subnets)))
  }

  function NormalReservations(o: Option<CapacityReservations>): Option<CapacityReservations> {
    if o.None? then None
    else Some(o.value.(reservationPreference := NormalEnum(o.value.reservationPreference)))
  }

  function NormalLocalStorage(o: Option<LocalStorageConfiguration>): Option<LocalStorageConfiguration> {
    if o.Some? && o.value.useLocalStorage.None? then Some(LocalStorageConfiguration(Some(false))) else o
  }

  function NormalTemplate(o: Option<InstanceLaunchTemplate>): Option<InstanceLaunchTemplate> {
    if o.None? then None
    else
      var t := o.value;
      Some(t.(capacityOptionType := NormalEnum(t.capacityOptionType),
              capacityReservations := NormalReservations(t.capacityReservations),
              profileRef := None,
              requirements := NormalRequirements(t.requirements),
              localStorage := NormalLocalStorage(t.localStorage),
              monitoring := NormalEnum(t.monitoring),
              network := NormalNetwork(t.network)))
  }

  function NormalAutoRepair(o: Option<AutoRepairConfiguration>): Option<AutoRepairConfiguration> {
    if o.None? then None else Some(AutoRepairConfiguration(NormalEnum(o.value.actionsStatus)))
  }

  function NormalMip(o: Option<ManagedInstancesProvider>): Option<ManagedInstancesProvider> {
    if o.None? then None
    else
      var m := o.value;
      Some(m.(autoRepair := NormalAutoRepair(m.autoRepair),
              roleRef := None,
              template := NormalTemplate(m.template),
              propagateTags := NormalEnum(m.propagateTags)))
  }

  function NormalAsgp(o: Option<AutoScalingGroupProvider>): Option<AutoScalingGroupProvider> {
    if o.None? then None
    else
      var a := o.value;
      Some(a.(ref := None,
              managedDraining := NormalEnum(a.managedDraining),
              managedScaling := NormalScaling(a.managedScaling),
              managedTerminationProtection := NormalEnum(a.managedTerminationProtection)))
  }

  /** Nested references dropped, empty enum strings nil, an unset UseLocalStorage false, nil
      elements of plain string lists "". */
  function Normal(s: Spec): Spec {
    s.(asgp := NormalAsgp(s.asgp), mip := NormalMip(s.mip))
  }

  lemma NormalListMeans(l: StringPList)
    ensures NormalList(NormalList(l)) == NormalList(l)
    ensures PlainList(NormalList(l)) == PlainList(l)
    ensures ListFromSdk(PlainList(l)) == NormalList(l)
    ensures NoNil(l) ==> NormalList(l) == l
  {
    if l.Some? {
      assert NormalList(NormalList(l)).value == NormalList(l).value;
      assert PlainList(NormalList(l)).value == PlainList(l).value;
      assert ListFromSdk(PlainList(l)).value == NormalList(l).value;
      if NoNil(l) {
        assert Elements(l) == l.value;
        assert NormalList(l).value == l.value;
      }
    }
  }

  lemma TagsRoundTrip(l: TagList)
    requires TagPayload(l).Ok?
    ensures ListFromSdk(TagPayload(l).value) == l
  {
    if l.Some? {
      assert Elements(l) == l.value;
      assert ListFromSdk(TagPayload(l).value).value == l.value;
    }
  }

  lemma EnumListRoundTrip(l: StringPList)
    requires EnumList(l).Ok?
    ensures ListFromSdk(EnumList(l).value) == l
  {
    NormalListMeans(l);
  }

  lemma RangeRoundTrip(r: Option<Range<int64>>)
    requires NarrowRange(r).Ok?
    ensures RangeFromSdk(NarrowRange(r).value) == r
  {
  }

  lemma EnumRoundTrip(v: Option<string>)
    ensures StringFromEnum(EnumString(v)) == NormalEnum(v)
  {
  }

  // What each part of the requirements fills in, and that it leaves the rest alone.

  lemma AcceleratorParts(q: InstanceRequirements, f: SdkRequirements)
    requires AddAccelerators(q, f).Ok?
    ensures var p := AddAccelerators(q, f).value;
            && NarrowRange(q.acceleratorCount) == Ok(p.acceleratorCount)
            && EnumList(q.acceleratorManufacturers) == Ok(p.acceleratorManufacturers)
            && EnumList(q.acceleratorNames) == Ok(p.acceleratorNames)
            && NarrowRange(q.acceleratorTotalMemoryMiB) == Ok(p.acceleratorTotalMemoryMiB)
            && EnumList(q.acceleratorTypes) == Ok(p.acceleratorTypes)
            && p.allowedInstanceTypes == PlainList(q.allowedInstanceTypes)
            && p.bareMetal == EnumString(q.bareMetal)
  {
  }

  lemma InstanceParts(q: InstanceRequirements, f: SdkRequirements)
    requires AddInstances(q, f).Ok?
    ensures var p := AddInstances(q, f).value;
            && NarrowRange(q.baselineEbsBandwidthMbps) == Ok(p.baselineEbsBandwidthMbps)
            && EnumList(q.cpuManufacturers) == Ok(p.cpuManufacturers)
            && EnumList(q.instanceGenerations) == Ok(p.instanceGenerations)
            && EnumList(q.localStorageTypes) == Ok(p.localStorageTypes)
            && Widen(p.maxSpotPricePercentage) == q.maxSpotPricePercentage
            && p.excludedInstanceTypes == PlainList(q.excludedInstanceTypes)
            && p.burstablePerformance == EnumString(q.burstablePerformance)
            && p.localStorage == EnumString(q.localStorage)
            && p.(baselineEbsBandwidthMbps := None, cpuManufacturers := None, instanceGenerations := None,
                  localStorageTypes := None, maxSpotPricePercentage := None, excludedInstanceTypes := None,
                  burstablePerformance := "", localStorage := "")
               == f.(baselineEbsBandwidthMbps := None, cpuManufacturers := None, instanceGenerations := None,
                     localStorageTypes := None, maxSpotPricePercentage := None, excludedInstanceTypes := None,
                     burstablePerformance := "", localStorage := "")
  {
  }

  lemma CapacityParts(q: InstanceRequirements, f: SdkRequirements)
    requires AddCapacity(q, f).Ok?
    ensures var p := AddCapacity(q, f).value;
            && NarrowRange(q.memoryMiB) == Ok(p.memoryMiB)
            && NarrowRange(q.networkInterfaceCount) == Ok(p.networkInterfaceCount)
            && Widen(p.onDemandMaxPricePercentage) == q.onDemandMaxPricePercentage
            && Widen(p.spotMaxPricePercentage) == q.spotMaxPricePercentage
            && NarrowRange(q.vCpuCount) == Ok(p.vCpuCount)
            && p.memoryGiBPerVCpu == q.memoryGiBPerVCpu
            && p.networkBandwidthGbps == q.networkBandwidthGbps
            && p.requireHibernateSupport == q.requireHibernateSupport
            && p.totalLocalStorageGB == q.totalLocalStorageGB
            && p.(memoryMiB := None, networkInterfaceCount := None, onDemandMaxPricePercentage := None,
                  spotMaxPricePercentage := None, vCpuCount := None, memoryGiBPerVCpu := None,
                  networkBandwidthGbps := None, requireHibernateSupport := None, totalLocalStorageGB := None)
               == f.(memoryMiB := None, networkInterfaceCount := None, onDemandMaxPricePercentage := None,
                     spotMaxPricePercentage := None, vCpuCount := None, memoryGiBPerVCpu := None,
                     networkBandwidthGbps := None, requireHibernateSupport := None, totalLocalStorageGB := None)
  {
  }

  /** Each field of a built payload comes from the field of the same name. */
  lemma RequirementsParts(q: InstanceRequirements)
    requires RequirementsPayload(Some(q)).Ok?
    ensures RequirementsPayload(Some(q)).value.Some?
    ensures var p := RequirementsPayload(Some(q)).value.value;
            && NarrowRange(q.acceleratorCount) == Ok(p.acceleratorCount)
            && EnumList(q.acceleratorManufacturers) == Ok(p.acceleratorManufacturers)
            && EnumList(q.acceleratorNames) == Ok(p.acceleratorNames)
            && NarrowRange(q.acceleratorTotalMemoryMiB) == Ok(p.acceleratorTotalMemoryMiB)
            && EnumList(q.acceleratorTypes) == Ok(p.acceleratorTypes)
            && NarrowRange(q.baselineEbsBandwidthMbps) == Ok(p.baselineEbsBandwidthMbps)
            && EnumList(q.cpuManufacturers) == Ok(p.cpuManufacturers)
            && EnumList(q.instanceGenerations) == Ok(p.instanceGenerations)
            && EnumList(q.localStorageTypes) == Ok(p.localStorageTypes)
            && Widen(p.maxSpotPricePercentage) == q.maxSpotPricePercentage
            && NarrowRange(q.memoryMiB) == Ok(p.memoryMiB)
            && NarrowRange(q.networkInterfaceCount) == Ok(p.networkInterfaceCount)
            && Widen(p.onDemandMaxPricePercentage) == q.onDemandMaxPricePercentage
            && Widen(p.spotMaxPricePercentage) == q.spotMaxPricePercentage
            && NarrowRange(q.vCpuCount) == Ok(p.vCpuCount)
            && p.allowedInstanceTypes == PlainList(q.allowedInstanceTypes)
            && p.excludedInstanceTypes == PlainList(q.excludedInstanceTypes)
            && p.bareMetal == EnumString(q.bareMetal)
            && p.burstablePerformance == EnumString(q.burstablePerformance)
            && p.localStorage == EnumString(q.localStorage)
            && p.memoryGiBPerVCpu == q.memoryGiBPerVCpu
            && p.networkBandwidthGbps == q.networkBandwidthGbps
            && p.requireHibernateSupport == q.requireHibernateSupport
            && p.totalLocalStorageGB == q.totalLocalStorageGB
  {
    hide AddAccelerators, AddInstances, AddCapacity, NarrowRange, EnumList, PlainList, EnumString, Widen;
    var f1 := AddAccelerators(q, EMPTY_REQUIREMENTS).value;
    var f2 := AddInstances(q, f1).value;
    AcceleratorParts(q, EMPTY_REQUIREMENTS);
    InstanceParts(q, f1);
    CapacityParts(q, f2);
  }

  lemma RequirementsRoundTrip(o: Option<InstanceRequirements>)
    requires RequirementsPayload(o).Ok?
    ensures RequirementsFromSdk(RequirementsPayload(o).value) == NormalRequirements(o)
  {
    if o.Some? {
      var q := o.value;
      hide RequirementsPayload, NarrowRange, EnumList, RangeFromSdk, ListFromSdk, PlainList, NormalList;
      hide Widen, EnumString, StringFromEnum, NormalEnum;
      RequirementsParts(q);
      EnumRoundTrip(q.bareMetal);
      EnumRoundTrip(q.burstablePerformance);
      EnumRoundTrip(q.localStorage);
      RangeRoundTrip(q.acceleratorCount);
      RangeRoundTrip(q.acceleratorTotalMemoryMiB);
      RangeRoundTrip(q.baselineEbsBandwidthMbps);
      RangeRoundTrip(q.memoryMiB);
      RangeRoundTrip(q.networkInterfaceCount);
      RangeRoundTrip(q.vCpuCount);
      EnumListRoundTrip(q.acceleratorManufacturers);
      EnumListRoundTrip(q.acceleratorNames);
      EnumListRoundTrip(q.acceleratorTypes);
      EnumListRoundTrip(q.cpuManufacturers);
      EnumListRoundTrip(q.instanceGenerations);
      EnumListRoundTrip(q.localStorageTypes);
      NormalListMeans(q.allowedInstanceTypes);
      NormalListMeans(q.excludedInstanceTypes);
    }
  }

  lemma TemplateLeavesRoundTrip(t: InstanceLaunchTemplate)
    ensures ReservationsFromSdk(ReservationsPayload(t.capacityReservations))
         == NormalReservations(t.capacityReservations)
    ensures LocalStorageFromSdk(LocalStoragePayload(t.localStorage)) == NormalLocalStorage(t.localStorage)
    ensures NetworkFromSdk(NetworkPayload(t.network)) == NormalNetwork(t.network)
    ensures StoragePayload(t.storage).Ok? ==> StorageFromSdk(StoragePayload(t.storage).value) == t.storage
  {
    if t.network.Some? {
      NormalListMeans(t.network.value.securityGroups);
      NormalListMeans(t.network.value.subnets);
    }
    if t.localStorage.Some? && t.localStorage.value.useLocalStorage.Some? {
      assert t.localStorage.value.useLocalStorage == Some(t.localStorage.value.useLocalStorage.value);
    }
  }

  lemma TemplateRoundTrip(o: Option<InstanceLaunchTemplate>)
    requires TemplatePayload(o).Ok?
    ensures TemplateFromSdk(TemplatePayload(o).value) == NormalTemplate(o)
  {
    if o.Some? {
      RequirementsRoundTrip(o.value.requirements);
      TemplateLeavesRoundTrip(o.value);
    }
  }

  lemma MipRoundTrip(o: Option<ManagedInstancesProvider>)
    requires MipPayload(o).Ok?
    ensures MipFromSdk(MipPayload(o).value) == NormalMip(o)
  {
    if o.Some? {
      TemplateRoundTrip(o.value.template);
    }
  }

  lemma AsgpRoundTrip(o: Option<AutoScalingGroupProvider>)
    requires AsgpPayload(o).Ok?
    ensures AsgpFromSdk(AsgpPayload(o).value) == NormalAsgp(o)
  {
  }

  /** The service answers with what it was sent. */
  predicate Echoes(e: SdkCapacityProvider, p: CreateInput) {
    e.asgp == p.asgp && e.cluster == p.cluster && e.mip == p.mip && e.name == p.name && e.tags == p.tags
  }

  /** A create call whose payload is echoed rebuilds the normal form of the spec. */
  lemma CreateRoundTrip(s: Spec, e: SdkCapacityProvider)
    requires CreatePayload(s).Ok? && Echoes(e, CreatePayload(s).value)
    ensures SpecFromSdk(s, e) == Normal(s)
  {
    AsgpRoundTrip(s.asgp);
    MipRoundTrip(s.mip);
    TagsRoundTrip(s.tags);
  }

  lemma NormalRequirementsSendTheSame(o: Option<InstanceRequirements>)
    ensures NormalRequirements(NormalRequirements(o)) == NormalRequirements(o)
    ensures RequirementsPayload(NormalRequirements(o)) == RequirementsPayload(o)
  {
    if o.Some? {
      var q, n := o.value, NormalRequirements(o).value;
      NormalListMeans(q.allowedInstanceTypes);
      NormalListMeans(q.excludedInstanceTypes);
      assert forall f :: AddAccelerators(n, f) == AddAccelerators(q, f);
      assert forall f :: AddInstances(n, f) == AddInstances(q, f);
      assert forall f :: AddCapacity(n, f) == AddCapacity(q, f);
      hide AddAccelerators, AddInstances, AddCapacity;
    }
  }

  lemma NormalTemplateSendsTheSame(o: Option<InstanceLaunchTemplate>)
    ensures NormalTemplate(NormalTemplate(o)) == NormalTemplate(o)
    ensures TemplatePayload(NormalTemplate(o)) == TemplatePayload(o)
  {
    if o.Some? {
      NormalRequirementsSendTheSame(o.value.requirements);
      if o.value.network.Some? {
        NormalListMeans(o.value.network.value.securityGroups);
        NormalListMeans(o.value.network.value.subnets);
      }
    }
  }

  /** Normalising is idempotent and does not change what is sent, verdict included. */
  lemma NormalSendsTheSame(s: Spec)
    ensures Normal(Normal(s)) == Normal(s)
    ensures CreatePayload(Normal(s)) == CreatePayload(s)
  {
    if s.mip.Some? {
      NormalTemplateSendsTheSame(s.mip.value.template);
    }
    assert AsgpPayload(NormalAsgp(s.asgp)) == AsgpPayload(s.asgp);
    assert MipPayload(NormalMip(s.mip)) == MipPayload(s.mip);
  }
}
