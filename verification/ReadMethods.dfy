/** sdkFind, sdkCreate, sdkUpdate and setStatusDefaults of pkg/resource/capacity_provider/sdk.go
    on the object graph, where the search loop writes into its copy of the resource element by
    element. Each is proved to do what ReadPath.dfy says. */
module ReadMethods {
  import opened ApiTypes
  import opened Objects
  import opened Payloads
  import opened PayloadMethods
  import opened ReadPath
  import opened UpdatePayloads
  import UpdatePayloadMethods

  /** The fields of a resource manager that a status comes to point to. */
  class ManagerNode {
    const awsAccountID: Cell<string>
    const awsRegion: Cell<string>
    const awsPartition: Cell<string>

    constructor (account: string, region: string, partition: string)
      ensures Id() == Identity(account, region, partition) && fresh(Fields())
    {
      awsAccountID := new Cell(account);
      awsRegion := new Cell(region);
      awsPartition := new Cell(partition);
    }

    function Id(): Identity {
      Identity(awsAccountID.value, awsRegion.value, awsPartition.value)
    }

    ghost function Fields(): set<object> {
      {awsAccountID, awsRegion, awsPartition}
    }
  }

  // ---- structs from a response ----

  method NewCell<T>(v: Option<T>) returns (c: Cell?<T>)
    ensures ValueOf(c) == v && fresh(NodeOf(c))
  {
    c := null;
    if v.Some? {
      c := new Cell(v.value);
    }
  }

  /** An enum that is not set is "". */
  method NewEnum(s: string) returns (c: Cell?<string>)
    ensures ValueOf(c) == StringFromEnum(s) && fresh(NodeOf(c))
  {
    c := null;
    if s != "" {
      c := new Cell(s);
    }
  }

  method NewRange<T>(r: Option<Range<T>>) returns (c: Cell?<RangeStruct<T>>)
    ensures RangeOf(c) == r && fresh(RangeGraph(c))
  {
    if r.None? {
      return null;
    }
    var max := NewCell(r.value.max);
    var min := NewCell(r.value.min);
    c := new Cell(RangeStruct(max, min));
  }

  method NewStringList(l: Slice<string>) returns (r: Slice<Cell?<string>>)
    ensures ValuesOf(r) == ListFromSdk(l) && fresh(NodesOf(r))
  {
    if l.None? {
      return None;
    }
    var elems: seq<Cell?<string>> := [];
    for i := 0 to |l.value|
      invariant |elems| == i
      invariant forall j :: 0 <= j < i ==> ValueOf(elems[j]) == Some(l.value[j])
      invariant forall c :: c in elems && c != null ==> fresh(c)
    {
      var elem := new Cell(l.value[i]);
      elems := elems + [elem];
    }
    r := Some(elems);
    assert ValuesOf(r).value == ListFromSdk(l).value;
  }

  method NewScaling(o: Option<SdkManagedScaling>) returns (c: Cell?<ScalingStruct>)
    ensures ScalingOf(c) == ScalingFromSdk(o) && fresh(ScalingGraph(c))
  {
    if o.None? {
      return null;
    }
    var warmup := NewCell(Widen(o.value.instanceWarmupPeriod));
    var maxStep := NewCell(Widen(o.value.maximumScalingStepSize));
    var minStep := NewCell(Widen(o.value.minimumScalingStepSize));
    var status := NewEnum(o.value.status);
    var target := NewCell(Widen(o.value.targetCapacity));
    c := new Cell(ScalingStruct(warmup, maxStep, minStep, status, target));
  }

  method NewAsgp(a: SdkAsgp) returns (f: AsgpNode)
    ensures Some(f.Value()) == AsgpFromSdk(Some(a)) && fresh(f.Graph())
  {
    hide ScalingOf, ScalingGraph, ScalingFromSdk, ValueOf, NodeOf, StringFromEnum;
    var arn := NewCell(a.arn);
    var draining := NewEnum(a.managedDraining);
    var scaling := NewScaling(a.managedScaling);
    var protection := NewEnum(a.managedTerminationProtection);
    f := new AsgpNode();
    f.arn, f.managedDraining := arn, draining;
    f.managedScaling, f.managedTerminationProtection := scaling, protection;
  }

  function WithAccelerators(v: InstanceRequirements, q: SdkRequirements): InstanceRequirements {
    v.(acceleratorCount := RangeFromSdk(q.acceleratorCount),
       acceleratorManufacturers := ListFromSdk(q.acceleratorManufacturers),
       acceleratorNames := ListFromSdk(q.acceleratorNames),
       acceleratorTotalMemoryMiB := RangeFromSdk(q.acceleratorTotalMemoryMiB),
       acceleratorTypes := ListFromSdk(q.acceleratorTypes),
       allowedInstanceTypes := ListFromSdk(q.allowedInstanceTypes), bareMetal := StringFromEnum(q.bareMetal))
  }

  method FillAccelerators(q: SdkRequirements, p0: RequirementsStruct) returns (p: RequirementsStruct)
    ensures RequirementsValue(p) == WithAccelerators(RequirementsValue(p0), q)
    ensures fresh(AcceleratorGraph(p)) && InstanceGraph(p) == InstanceGraph(p0) && CapacityGraph(p) == CapacityGraph(p0)
  {
    hide ValueOf, NodeOf, ValuesOf, NodesOf, RangeOf, RangeGraph, RangeFromSdk, ListFromSdk, StringFromEnum, Widen;
    var acceleratorCount := NewRange(RangeFromSdk(q.acceleratorCount));
    var acceleratorManufacturers := NewStringList(q.acceleratorManufacturers);
    var acceleratorNames := NewStringList(q.acceleratorNames);
    var acceleratorTotalMemoryMiB := NewRange(RangeFromSdk(q.acceleratorTotalMemoryMiB));
    var acceleratorTypes := NewStringList(q.acceleratorTypes);
    var allowedInstanceTypes := NewStringList(q.allowedInstanceTypes);
    var bareMetal := NewEnum(q.bareMetal);
    p := p0.(acceleratorCount := acceleratorCount, acceleratorManufacturers := acceleratorManufacturers,
             acceleratorNames := acceleratorNames, acceleratorTotalMemoryMiB := acceleratorTotalMemoryMiB,
             acceleratorTypes := acceleratorTypes, allowedInstanceTypes := allowedInstanceTypes,
             bareMetal := bareMetal);
  }

  function WithInstances(v: InstanceRequirements, q: SdkRequirements): InstanceRequirements {
    v.(baselineEbsBandwidthMbps := RangeFromSdk(q.baselineEbsBandwidthMbps),
       burstablePerformance := StringFromEnum(q.burstablePerformance),
       cpuManufacturers := ListFromSdk(q.cpuManufacturers),
       excludedInstanceTypes := ListFromSdk(q.excludedInstanceTypes),
       instanceGenerations := ListFromSdk(q.instanceGenerations), localStorage := StringFromEnum(q.localStorage),
       localStorageTypes := ListFromSdk(q.localStorageTypes),
       maxSpotPricePercentage := Widen(q.maxSpotPricePercentage))
  }

  method FillInstances(q: SdkRequirements, p0: RequirementsStruct) returns (p: RequirementsStruct)
    ensures RequirementsValue(p) == WithInstances(RequirementsValue(p0), q)
    ensures fresh(InstanceGraph(p))
    ensures AcceleratorGraph(p) == AcceleratorGraph(p0) && CapacityGraph(p) == CapacityGraph(p0)
  {
    hide ValueOf, NodeOf, ValuesOf, NodesOf, RangeOf, RangeGraph, RangeFromSdk, ListFromSdk, StringFromEnum, Widen;
    var baselineEbsBandwidthMbps := NewRange(RangeFromSdk(q.baselineEbsBandwidthMbps));
    var burstablePerformance := NewEnum(q.burstablePerformance);
    var cpuManufacturers := NewStringList(q.cpuManufacturers);
    var excludedInstanceTypes := NewStringList(q.excludedInstanceTypes);
    var instanceGenerations := NewStringList(q.instanceGenerations);
    var localStorage := NewEnum(q.localStorage);
    var localStorageTypes := NewStringList(q.localStorageTypes);
    var maxSpotPricePercentage := NewCell(Widen(q.maxSpotPricePercentage));
    p := p0.(baselineEbsBandwidthMbps := baselineEbsBandwidthMbps, burstablePerformance := burstablePerformance,
             cpuManufacturers := cpuManufacturers, excludedInstanceTypes := excludedInstanceTypes,
             instanceGenerations := instanceGenerations, localStorage := localStorage,
             localStorageTypes := localStorageTypes, maxSpotPricePercentage := maxSpotPricePercentage);
  }

  function WithCapacity(v: InstanceRequirements, q: SdkRequirements): InstanceRequirements {
    v.(memoryGiBPerVCpu := q.memoryGiBPerVCpu, memoryMiB := RangeFromSdk(q.memoryMiB),
       networkBandwidthGbps := q.networkBandwidthGbps,
       networkInterfaceCount := RangeFromSdk(q.networkInterfaceCount),
       onDemandMaxPricePercentage := Widen(q.onDemandMaxPricePercentage),
       requireHibernateSupport := q.requireHibernateSupport,
       spotMaxPricePercentage := Widen(q.spotMaxPricePercentage), totalLocalStorageGB := q.totalLocalStorageGB,
       vCpuCount := RangeFromSdk(q.vCpuCount))
  }

  method FillCapacity(q: SdkRequirements, p0: RequirementsStruct) returns (p: RequirementsStruct)
    ensures RequirementsValue(p) == WithCapacity(RequirementsValue(p0), q)
    ensures fresh(CapacityGraph(p))
    ensures AcceleratorGraph(p) == AcceleratorGraph(p0) && InstanceGraph(p) == InstanceGraph(p0)
  {
    hide ValueOf, NodeOf, ValuesOf, NodesOf, RangeOf, RangeGraph, RangeFromSdk, ListFromSdk, StringFromEnum, Widen;
    var memoryGiBPerVCpu := NewRange(q.memoryGiBPerVCpu);
    var memoryMiB := NewRange(RangeFromSdk(q.memoryMiB));
    var networkBandwidthGbps := NewRange(q.networkBandwidthGbps);
    var networkInterfaceCount := NewRange(RangeFromSdk(q.networkInterfaceCount));
    var onDemandMaxPricePercentage := NewCell(Widen(q.onDemandMaxPricePercentage));
    var requireHibernateSupport := NewCell(q.requireHibernateSupport);
    var spotMaxPricePercentage := NewCell(Widen(q.spotMaxPricePercentage));
    var totalLocalStorageGB := NewRange(q.totalLocalStorageGB);
    var vCpuCount := NewRange(RangeFromSdk(q.vCpuCount));
    p := p0.(memoryGiBPerVCpu := memoryGiBPerVCpu, memoryMiB := memoryMiB,
             networkBandwidthGbps := networkBandwidthGbps, networkInterfaceCount := networkInterfaceCount,
             onDemandMaxPricePercentage := onDemandMaxPricePercentage,
             requireHibernateSupport := requireHibernateSupport, spotMaxPricePercentage := spotMaxPricePercentage,
             totalLocalStorageGB := totalLocalStorageGB, vCpuCount := vCpuCount);
  }

  lemma AllRequirementsFilled(v: InstanceRequirements, q: SdkRequirements)
    ensures Some(WithCapacity(WithInstances(WithAccelerators(v, q), q), q)) == RequirementsFromSdk(Some(q))
  {
  }

  method UnfilledRequirements() returns (p: RequirementsStruct) {
    p := RequirementsStruct(
      null, None, None, null, None, None, null, null, null, None, None, None, null, None, null, null, null, null,
      null, null, null, null, null, null);
  }

  method FillRequirements(q: SdkRequirements) returns (p: RequirementsStruct)
    ensures Some(RequirementsValue(p)) == RequirementsFromSdk(Some(q))
    ensures fresh(AcceleratorGraph(p)) && fresh(InstanceGraph(p)) && fresh(CapacityGraph(p))
  {
    hide AcceleratorGraph, InstanceGraph, CapacityGraph, RequirementsValue, RequirementsFromSdk;
    hide WithAccelerators, WithInstances, WithCapacity;
    p := UnfilledRequirements();
    AllRequirementsFilled(RequirementsValue(p), q);
    p := FillAccelerators(q, p);
    p := FillInstances(q, p);
    p := FillCapacity(q, p);
  }

  method NewRequirements(o: Option<SdkRequirements>) returns (c: Cell?<RequirementsStruct>)
    ensures RequirementsOf(c) == RequirementsFromSdk(o) && fresh(RequirementsGraph(c))
  {
    hide AcceleratorGraph, InstanceGraph, CapacityGraph, RequirementsValue;
    if o.None? {
      return null;
    }
    hide RequirementsFromSdk;
    var filled := FillRequirements(o.value);
    c := new Cell(filled);
  }

  method NewReservations(o: Option<SdkCapacityReservations>) returns (c: Cell?<ReservationsStruct>)
    ensures ReservationsOf(c) == ReservationsFromSdk(o) && fresh(ReservationsGraph(c))
  {
    if o.None? {
      return null;
    }
    var arn := NewCell(o.value.reservationGroupArn);
    var preference := NewEnum(o.value.reservationPreference);
    c := new Cell(ReservationsStruct(arn, preference));
  }

  method NewLocalStorage(o: Option<SdkLocalStorage>) returns (c: Cell?<LocalStorageStruct>)
    ensures LocalStorageOf(c) == LocalStorageFromSdk(o) && fresh(LocalStorageGraph(c))
  {
    if o.None? {
      return null;
    }
    var use := new Cell(o.value.useLocalStorage);
    c := new Cell(LocalStorageStruct(use));
  }

  method NewStorage(o: Option<SdkStorage>) returns (c: Cell?<StorageStruct>)
    ensures StorageOf(c) == StorageFromSdk(o) && fresh(StorageGraph(c))
  {
    if o.None? {
      return null;
    }
    var size := NewCell(Widen(o.value.storageSizeGiB));
    c := new Cell(StorageStruct(size));
  }

  method NewNetwork(n: SdkNetwork) returns (f: NetworkNode)
    ensures Some(f.Value()) == NetworkFromSdk(Some(n)) && fresh(f.Graph())
  {
    hide ValuesOf, NodesOf, ListFromSdk;
    var groups := NewStringList(n.securityGroups);
    var nets := NewStringList(n.subnets);
    f := new NetworkNode();
    f.securityGroups, f.subnets := groups, nets;
  }

  lemma NoRefGraph()
    ensures RefGraph(null) == {}
  {
  }

  lemma NothingFromSdk()
    ensures AsgpFromSdk(None) == None && MipFromSdk(None) == None
    ensures TemplateFromSdk(None) == None && NetworkFromSdk(None) == None
  {
  }

  method NewTemplate(t: SdkTemplate) returns (f: TemplateNode)
    ensures Some(f.Value()) == TemplateFromSdk(Some(t)) && fresh(f.Graph())
  {
    hide RequirementsFromSdk, ReservationsFromSdk, LocalStorageFromSdk, StorageFromSdk, StringFromEnum;
    hide RequirementsOf, RequirementsGraph, ReservationsOf, ReservationsGraph, LocalStorageOf, LocalStorageGraph;
    hide StorageOf, StorageGraph, ValueOf, NodeOf, NetworkNode.Value, NetworkNode.Graph;
    hide NetworkFromSdk, RefGraph, TemplateNode.Leaves, TemplateNode.Graph;
    NothingFromSdk();
    var optionType := NewEnum(t.capacityOptionType);
    var reservations := NewReservations(t.capacityReservations);
    var arn := NewCell(t.profileArn);
    var fips := NewCell(t.fipsEnabled);
    var propagation := NewCell(t.tagsPropagation);
    var requirements := NewRequirements(t.requirements);
    var local := NewLocalStorage(t.localStorage);
    var monitoring := NewEnum(t.monitoring);
    var network: NetworkNode? := null;
    if t.network.Some? {
      network := NewNetwork(t.network.value);
    }
    var storage := NewStorage(t.storage);
    f := new TemplateNode.Of(optionType, reservations, arn, null, fips, propagation, requirements, local, monitoring,
                             network, storage);
    NoRefGraph();
    AllNew(f);
  }

  method NewAutoRepair(o: Option<SdkAutoRepair>) returns (c: Cell?<AutoRepairStruct>)
    ensures AutoRepairOf(c) == AutoRepairFromSdk(o) && fresh(AutoRepairGraph(c))
  {
    if o.None? {
      return null;
    }
    var status := NewEnum(o.value.actionsStatus);
    c := new Cell(AutoRepairStruct(status));
  }

  method NewOptimization(o: Option<SdkOptimization>) returns (c: Cell?<OptimizationStruct>)
    ensures OptimizationOf(c) == OptimizationFromSdk(o) && fresh(OptimizationGraph(c))
  {
    if o.None? {
      return null;
    }
    var after := NewCell(Widen(o.value.scaleInAfter));
    c := new Cell(OptimizationStruct(after));
  }

  method NewMip(m: SdkMip) returns (f: MipNode)
    ensures Some(f.Value()) == MipFromSdk(Some(m)) && fresh(f.Graph())
  {
    hide TemplateNode.Value, TemplateNode.Graph, AutoRepairOf, AutoRepairGraph, AutoRepairFromSdk;
    hide OptimizationOf, OptimizationGraph, OptimizationFromSdk, ValueOf, NodeOf, StringFromEnum;
    hide TemplateFromSdk;
    NothingFromSdk();
    var repair := NewAutoRepair(m.autoRepair);
    var optimization := NewOptimization(m.optimization);
    var role := NewCell(m.roleArn);
    var template: TemplateNode? := null;
    if m.template.Some? {
      template := NewTemplate(m.template.value);
    }
    var propagation := NewEnum(m.propagateTags);
    f := new MipNode.Of(repair, optimization, role, null, template, propagation);
  }

  method NewTags(ts: Slice<Tag>) returns (r: Slice<Cell?<TagStruct>>)
    ensures TagListOf(r) == ListFromSdk(ts) && fresh(TagsGraph(r))
  {
    if ts.None? {
      return None;
    }
    var elems: seq<Cell?<TagStruct>> := [];
    for i := 0 to |ts.value|
      invariant |elems| == i
      invariant forall j :: 0 <= j < i ==> TagOf(elems[j]) == Some(ts.value[j])
      invariant forall j :: 0 <= j < i ==> fresh(TagGraph(elems[j]))
    {
      var key := NewCell(ts.value[i].key);
      var value := NewCell(ts.value[i].value);
      var elem := new Cell(TagStruct(key, value));
      elems := elems + [elem];
    }
    r := Some(elems);
    assert TagListOf(r).value == ListFromSdk(ts).value;
  }

  // ---- merging a response into the resource ----

  method MergeAsgp(s: SpecNode, e: SdkCapacityProvider)
    modifies s
    ensures s.Value() == old(s.Value()).(asgp := AsgpFromSdk(e.asgp))
    ensures forall o :: o in s.Graph() ==> o in old(s.Graph()) || fresh(o)
  {
    hide AsgpFromSdk, AsgpNode.Value, AsgpNode.Graph, MipNode.Value, MipNode.Graph, RefOf, RefGraph;
    hide TagListOf, TagsGraph, ValueOf, NodeOf;
    NothingFromSdk();
    if e.asgp.Some? {
      var f := NewAsgp(e.asgp.value);
      s.asgp := f;
      assert f.Value() == AsgpFromSdk(e.asgp).value && fresh(f.Graph());
    } else {
      s.asgp := null;
    }
  }

  method MergeMip(s: SpecNode, e: SdkCapacityProvider)
    modifies s
    ensures s.Value() == old(s.Value()).(mip := MipFromSdk(e.mip))
    ensures forall o :: o in s.Graph() ==> o in old(s.Graph()) || fresh(o)
  {
    hide MipFromSdk, AsgpNode.Value, AsgpNode.Graph, MipNode.Value, MipNode.Graph, RefOf, RefGraph;
    hide TagListOf, TagsGraph, ValueOf, NodeOf;
    NothingFromSdk();
    if e.mip.Some? {
      var f := NewMip(e.mip.value);
      s.mip := f;
      assert f.Value() == MipFromSdk(e.mip).value && fresh(f.Graph());
    } else {
      s.mip := null;
    }
  }

  method MergeCluster(s: SpecNode, e: SdkCapacityProvider)
    modifies s
    ensures s.Value() == old(s.Value()).(cluster := e.cluster)
    ensures forall o :: o in s.Graph() ==> o in old(s.Graph()) || fresh(o)
    ensures s.asgp == old(s.asgp) && s.mip == old(s.mip)
  {
    hide AsgpNode.Value, AsgpNode.Graph, MipNode.Value, MipNode.Graph, RefOf, RefGraph, TagListOf, TagsGraph;
    if e.cluster.Some? {
      s.cluster := new Cell(e.cluster.value);
    } else {
      s.cluster := null;
    }
  }

  method SetArn(m: MetadataNode, arn: string)
    modifies m
    ensures m.Value() == old(m.Value()).(arn := Some(arn))
    ensures forall o :: o in m.Graph() ==> o in old(m.Graph()) || fresh(o)
  {
    m.arn := new Cell(arn);
  }

  method MergeArn(t: StatusNode, arn: Option<string>)
    modifies t, t.metadata
    ensures t.Value() == WithArn(old(t.Value()), arn)
    ensures forall o :: o in t.Graph() ==> o in old(t.Graph()) || fresh(o)
    ensures t.conditions == old(t.conditions)
  {
    hide MetadataNode.Value, MetadataNode.Graph, ConditionsGraph;
    if arn.Some? {
      if t.metadata == null {
        t.metadata := new MetadataNode();
      }
      SetArn(t.metadata, arn.value);
    }
  }

  method MergeSpecRest(s: SpecNode, e: SdkCapacityProvider)
    modifies s
    ensures s.Value() == old(s.Value()).(name := e.name, tags := ListFromSdk(e.tags))
    ensures forall o :: o in s.Graph() ==> o in old(s.Graph()) || fresh(o)
    ensures s.asgp == old(s.asgp) && s.mip == old(s.mip)
  {
    hide AsgpNode.Value, AsgpNode.Graph, MipNode.Value, MipNode.Graph, RefOf, RefGraph, ListFromSdk;
    hide TagListOf, TagsGraph;
    var name := NewCell(e.name);
    var tags := NewTags(e.tags);
    s.name, s.tags := name, tags;
  }

  method SetStatusFields(t: StatusNode, status: Cell?<string>, kind: Cell?<string>, updateStatus: Cell?<string>,
                         reason: Cell?<string>)
    modifies t
    ensures t.Value() == old(t.Value()).(status := ValueOf(status), kind := ValueOf(kind),
                                         updateStatus := ValueOf(updateStatus), updateStatusReason := ValueOf(reason))
    ensures t.Graph() <= old(t.Graph()) + NodeOf(status) + NodeOf(kind) + NodeOf(updateStatus) + NodeOf(reason)
    ensures t.conditions == old(t.conditions) && t.metadata == old(t.metadata)
  {
    hide MetadataNode.Value, MetadataNode.Graph, ConditionsGraph, ValueOf, NodeOf;
    t.status, t.kind, t.updateStatus, t.updateStatusReason := status, kind, updateStatus, reason;
  }

  method MergeStatusRest(t: StatusNode, e: SdkCapacityProvider)
    modifies t
    ensures t.Value() == old(t.Value()).(status := StringFromEnum(e.status), kind := StringFromEnum(e.kind),
                                         updateStatus := StringFromEnum(e.updateStatus),
                                         updateStatusReason := e.updateStatusReason)
    ensures forall o :: o in t.Graph() ==> o in old(t.Graph()) || fresh(o)
    ensures t.conditions == old(t.conditions) && t.metadata == old(t.metadata)
  {
    hide StatusNode.Value, StatusNode.Graph, StringFromEnum, ValueOf, NodeOf;
    var status := NewEnum(e.status);
    var kind := NewEnum(e.kind);
    var updateStatus := NewEnum(e.updateStatus);
    var reason := NewCell(e.updateStatusReason);
    SameStatus(t);
    SetStatusFields(t, status, kind, updateStatus, reason);
  }

  /** The pointers set are to the manager's own fields. */
  method SetMetadataDefaults(rm: ManagerNode, m: MetadataNode)
    modifies m
    ensures Some(m.Value()) == WithDefaults(rm.Id(), EMPTY_STATUS.(metadata := Some(old(m.Value())))).metadata
    ensures m.Graph() <= old(m.Graph()) + rm.Fields()
  {
    if m.region == null {
      m.region := rm.awsRegion;
    }
    if m.partition == null {
      m.partition := rm.awsPartition;
    }
    if m.ownerAccountId == null {
      m.ownerAccountId := rm.awsAccountID;
    }
  }

  const EMPTY_STATUS := Status(None, None, None, None, None, None)

  method SetStatusDefaults(rm: ManagerNode, t: StatusNode)
    modifies t, t.metadata
    ensures t.Value() == WithDefaults(rm.Id(), old(t.Value()))
    ensures forall o :: o in t.Graph() ==> o in old(t.Graph()) || fresh(o) || o in rm.Fields()
    ensures t.conditions == Some(old(Elements(t.conditions)))
  {
    hide MetadataNode.Value, MetadataNode.Graph, ConditionsGraph;
    if t.metadata == null {
      t.metadata := new MetadataNode();
    }
    SetMetadataDefaults(rm, t.metadata);
    if t.conditions.None? {
      t.conditions := Some([]);
      assert ConditionValues([]) == [];
    }
  }

  method MergeFirstInto(ko: CapacityProviderNode, e: SdkCapacityProvider)
    modifies ko.spec, ko.status, ko.status.metadata
    ensures ko.Value() == MergeFirst(old(ko.Value()), e)
    ensures forall o :: o in ko.Graph() ==> o in old(ko.Graph()) || fresh(o)
  {
    hide SpecNode.Value, SpecNode.Graph, StatusNode.Value, StatusNode.Graph, WithArn, AsgpFromSdk, MipFromSdk;
    MergeAsgp(ko.spec, e);
    SameStatus(ko.status);
    MergeArn(ko.status, e.arn);
    label Merged:
    MergeCluster(ko.spec, e);
    MergeMip(ko.spec, e);
    SameStatus@Merged(ko.status);
  }

  method MergeRestInto(ko: CapacityProviderNode, e: SdkCapacityProvider)
    modifies ko.spec, ko.status
    ensures ko.Value() == MergeRest(old(ko.Value()), e)
    ensures forall o :: o in ko.Graph() ==> o in old(ko.Graph()) || fresh(o)
  {
    hide SpecNode.Value, SpecNode.Graph, StatusNode.Value, StatusNode.Graph;
    MergeSpecRest(ko.spec, e);
    SameStatus(ko.status);
    MergeStatusRest(ko.status, e);
  }

  /** What an update answer overwrites. */
  method MergeUpdateInto(ko: CapacityProviderNode, e: SdkCapacityProvider)
    modifies ko.spec, ko.status, ko.status.metadata
    ensures ko.Value() == MergeUpdate(old(ko.Value()), e)
    ensures forall o :: o in ko.Graph() ==> o in old(ko.Graph()) || fresh(o)
  {
    hide SpecNode.Value, SpecNode.Graph, StatusNode.Value, StatusNode.Graph;
    MergeUpdateStatus(ko.status, e);
    label Merged:
    MergeCluster(ko.spec, e);
    MergeSpecRest(ko.spec, e);
    SameStatus@Merged(ko.status);
  }

  method MergeUpdateStatus(t: StatusNode, e: SdkCapacityProvider)
    modifies t, t.metadata
    ensures t.Value() == MergeUpdate(CapacityProvider("", EMPTY_SPEC, old(t.Value())), e).status
    ensures forall o :: o in t.Graph() ==> o in old(t.Graph()) || fresh(o)
    ensures t.conditions == old(t.conditions)
  {
    hide MetadataNode.Value, MetadataNode.Graph, ConditionsGraph, StringFromEnum;
    if t.metadata == null {
      t.metadata := new MetadataNode();
    }
    MergeArn(t, e.arn);
    MergeStatusRest(t, e);
  }

  const EMPTY_SPEC := Spec(None, None, None, None, None, None)

  lemma Members(r: CapacityProviderNode)
    ensures r.spec in r.Graph() && r.status in r.Graph()
    ensures r.status.metadata != null ==> r.status.metadata in r.Graph()
    ensures r.Value().spec.name == ValueOf(r.spec.name) && r.Value().status.status == ValueOf(r.status.status)
  {
    hide AsgpNode.Value, AsgpNode.Graph, MipNode.Value, MipNode.Graph, ConditionsGraph, ConditionValues;
  }

  /** The defaults set on a whole resource. */
  method SetDefaults(rm: ManagerNode, ko: CapacityProviderNode)
    modifies ko.status, ko.status.metadata
    ensures var v := old(ko.Value());
            ko.Value() == v.(status := WithDefaults(rm.Id(), v.status))
    ensures forall o :: o in ko.Graph() ==> o in old(ko.Graph()) || fresh(o) || o in rm.Fields()
    ensures ko.status.conditions == Some(old(Elements(ko.status.conditions)))
  {
    hide SpecNode.Value, SpecNode.Graph, StatusNode.Value, StatusNode.Graph, WithDefaults;
    SetStatusDefaults(rm, ko.status);
  }

  /** Every object of the graph is new or one of the three fields of the manager. */
  twostate predicate NewBut(rm: ManagerNode, new r: CapacityProviderNode)
    reads r.spec, r.spec.asgp, r.spec.mip, if r.spec.mip == null then null else r.spec.mip.template
    reads if r.spec.mip == null || r.spec.mip.template == null then null else r.spec.mip.template.network
    reads r.status, r.status.metadata, Elements(r.status.conditions)
  {
    forall o :: o in r.Graph() ==> fresh(o) || o in rm.Fields()
  }

  /** Why there is no resource. */
  datatype ReadError = IsNotFound | IsFailed(reason: string) | IsNilDereference

  /** The loop writes into a copy of r that shares no object with it. */
  method Search(r: CapacityProviderNode, es: seq<SdkCapacityProvider>) returns (out: CapacityProviderNode?)
    ensures out != null ==> fresh(out.Graph())
    ensures Scan(old(r.Value()), es) == if out == null then None else Some(out.Value())
  {
    hide CapacityProviderNode.Value, CapacityProviderNode.Graph, AsgpFromSdk, MipFromSdk, MergeRest;
    var ko := r.DeepCopy();
    ghost var v := ko.Value();
    var i, found := 0, false;
    while i < |es|
      invariant 0 <= i <= |es|
      invariant fresh(ko.Graph())
      invariant !found && Scan(v, es) == Scan(ko.Value(), es[i..])
    {
      Members(ko);
      var elem := es[i];
      assert es[i..][1..] == es[i + 1..];
      MergeFirstInto(ko, elem);
      Members(ko);
      if elem.name.Some? {
        if ko.spec.name != null {
          if elem.name.value != ko.spec.name.value {
            i := i + 1;
            continue;
          }
        }
      }
      MergeRestInto(ko, elem);
      found := true;
      break;
    }
    if !found {
      return null;
    }
    return ko;
  }

  /** sdkFind. */
  method Find(rm: ManagerNode, r: CapacityProviderNode, response: Response)
    returns (out: CapacityProviderNode?, e: ReadError)
    ensures out != null ==> NewBut(rm, out)
    ensures SdkFind(rm.Id(), old(r.Value()), response)
         == if out != null then Found(out.Value())
            else if e.IsNotFound? then NotFound
            else if e.IsFailed? then Failed(e.reason)
            else NilDereference
  {
    hide CapacityProviderNode.Value, CapacityProviderNode.Graph, Scan, WithDefaults;
    Members(r);
    if r.spec.name == null {
      return null, IsNilDereference;
    }
    if response.ApiError? {
      if response.code == Some("UNKNOWN") {
        return null, IsNotFound;
      }
      return null, IsFailed(response.reason);
    }
    var ko := Search(r, response.elements);
    if ko == null {
      return null, IsNotFound;
    }
    Members(ko);
    SetDefaults(rm, ko);
    Members(ko);
    if ko.status.status != null && ko.status.status.value == "INACTIVE" {
      return null, IsNotFound;
    }
    return ko, IsNotFound;
  }

  /** Why there is no created or updated resource. */
  datatype WriteError = IsRejected(field: string) | IsCallFailed(reason: string) | IsPanic

  method MergedCopy(rm: ManagerNode, r: CapacityProviderNode, e: SdkCapacityProvider)
    returns (ko: CapacityProviderNode)
    ensures NewBut(rm, ko)
    ensures var v := MergeRest(MergeFirst(old(r.Value()), e), e);
            ko.Value() == v.(status := WithDefaults(rm.Id(), v.status))
  {
    hide CapacityProviderNode.Value, CapacityProviderNode.Graph, MergeFirst, MergeRest, WithDefaults;
    ko := r.DeepCopy();
    Members(ko);
    MergeFirstInto(ko, e);
    Members(ko);
    MergeRestInto(ko, e);
    Members(ko);
    SetDefaults(rm, ko);
  }

  /** sdkCreate: the payload is built and sent, and the answer merged into a copy of desired. */
  method Create(rm: ManagerNode, desired: CapacityProviderNode, respond: CreateInput -> CreateResponse)
    returns (out: CapacityProviderNode?, e: WriteError)
    ensures out != null ==> NewBut(rm, out)
    ensures SdkCreate(rm.Id(), old(desired.Value()), respond)
         == if out != null then Created(out.Value())
            else if e.IsRejected? then Rejected(e.field)
            else if e.IsCallFailed? then CreateFailed(e.reason)
            else CreatePanic
  {
    hide SpecNode.Value, SpecNode.Graph, StatusNode.Value, StatusNode.Graph;
    hide MergeFirst, MergeRest, WithDefaults, CreatePayload;
    var input := NewCreateRequestPayload(desired.spec.Value());
    SameStatus(desired.status);
    if input.Err? {
      return null, IsRejected(input.field);
    }
    if input.Panic? {
      return null, IsPanic;
    }
    var answer := respond(input.value);
    if answer.CreateError? {
      return null, IsCallFailed(answer.reason);
    }
    if answer.element.None? {
      return null, IsPanic;
    }
    var ko := MergedCopy(rm, desired, answer.element.value);
    return ko, IsPanic;
  }

  method UpdatedCopy(rm: ManagerNode, r: CapacityProviderNode, e: SdkCapacityProvider)
    returns (ko: CapacityProviderNode)
    ensures NewBut(rm, ko)
    ensures var v := MergeUpdate(old(r.Value()), e);
            ko.Value() == v.(status := WithDefaults(rm.Id(), v.status))
  {
    hide CapacityProviderNode.Value, CapacityProviderNode.Graph, MergeUpdate, WithDefaults;
    ko := r.DeepCopy();
    Members(ko);
    MergeUpdateInto(ko, e);
    Members(ko);
    SetDefaults(rm, ko);
  }

  /** sdkUpdate: the same with the update request, whose answer leaves both providers alone. */
  method Update(rm: ManagerNode, desired: CapacityProviderNode, respond: UpdateInput -> UpdateResponse)
    returns (out: CapacityProviderNode?, e: WriteError)
    ensures out != null ==> NewBut(rm, out)
    ensures SdkUpdate(rm.Id(), old(desired.Value()), respond)
         == if out != null then UpdateDone(out.Value())
            else if e.IsRejected? then UpdateRejected(e.field)
            else if e.IsCallFailed? then UpdateFailed(e.reason)
            else UpdatePanic
  {
    hide SpecNode.Value, SpecNode.Graph, StatusNode.Value, StatusNode.Graph;
    hide MergeUpdate, WithDefaults, UpdatePayload;
    var input := UpdatePayloadMethods.NewUpdateRequestPayload(desired.spec.Value());
    SameStatus(desired.status);
    if input.Err? {
      return null, IsRejected(input.field);
    }
    if input.Panic? {
      return null, IsPanic;
    }
    var answer := respond(input.value);
    if answer.UpdateError? {
      return null, IsCallFailed(answer.reason);
    }
    if answer.element.None? {
      return null, IsPanic;
    }
    var ko := UpdatedCopy(rm, desired, answer.element.value);
    return ko, IsPanic;
  }
}
