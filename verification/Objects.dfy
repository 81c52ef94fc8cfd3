/** The object graph of a CapacityProvider and its deep copy
    (apis/v1alpha1/zz_generated.deepcopy.go).

    Every pointer of the source is an object here. What a pointer points to and the controller
    never changes afterwards (a string, a number, or a struct that is filled in once) is a Cell
    with a constant value; the value of a struct holds further pointers. The structs that are
    updated in place are classes with mutable fields. The functions called ..Of and Value() give
    the value an object stands for, those called ..Graph the objects it consists of. */
module Objects {
  import opened ApiTypes

  /** Something pointed to that is never changed. */
  class Cell<T> {
    const value: T

    constructor (v: T)
      ensures value == v
    {
      value := v;
    }
  }

  // ---- pointers to plain values ----

  function ValueOf<T>(c: Cell?<T>): Option<T> {
    if c == null then None else Some(c.value)
  }

  function ValuesOf<T>(cs: Slice<Cell?<T>>): Slice<Option<T>> {
    if cs.None? then None
    else Some(seq(|cs.value|, i requires 0 <= i < |cs.value| => ValueOf(cs.value[i])))
  }

  ghost function NodeOf<T>(c: Cell?<T>): set<object> {
    if c == null then {} else {c}
  }

  ghost function NodesOf<T>(cs: Slice<Cell?<T>>): set<object> {
    set c: Cell<T> | c in Elements(cs)
  }

  /** new(T) and a copy of the value, when there is one. */
  method CopyCell<T>(c: Cell?<T>) returns (out: Cell?<T>)
    ensures ValueOf(out) == ValueOf(c) && fresh(NodeOf(out))
  {
    out := null;
    if c != null {
      out := new Cell(c.value);
    }
  }

  /** make of the same length, then a copy of every element that is not nil. */
  method CopyCells<T>(cs: Slice<Cell?<T>>) returns (out: Slice<Cell?<T>>)
    ensures ValuesOf(out) == ValuesOf(cs) && fresh(NodesOf(out))
  {
    if cs.None? {
      return None;
    }
    var copies: seq<Cell?<T>> := [];
    for i := 0 to |cs.value|
      invariant |copies| == i
      invariant forall j :: 0 <= j < i ==> ValueOf(copies[j]) == ValueOf(cs.value[j])
      invariant forall c :: c in copies && c != null ==> fresh(c)
    {
      var copy := CopyCell(cs.value[i]);
      copies := copies + [copy];
    }
    out := Some(copies);
    assert ValuesOf(out).value == ValuesOf(cs).value;
  }

  // ---- structs that are filled in once ----

  datatype ReferenceStruct = ReferenceStruct(name: Cell?<string>, namespace: Cell?<string>)

  datatype WrapperStruct = WrapperStruct(from: Cell?<ReferenceStruct>)

  datatype TagStruct = TagStruct(key: Cell?<string>, value: Cell?<string>)

  datatype ScalingStruct = ScalingStruct(
    instanceWarmupPeriod: Cell?<int64>,
    maximumScalingStepSize: Cell?<int64>,
    minimumScalingStepSize: Cell?<int64>,
    status: Cell?<string>,
    targetCapacity: Cell?<int64>)

  datatype RangeStruct<T> = RangeStruct(max: Cell?<T>, min: Cell?<T>)

  datatype RequirementsStruct = RequirementsStruct(
    acceleratorCount: Cell?<RangeStruct<int64>>,
    acceleratorManufacturers: Slice<Cell?<string>>,
    acceleratorNames: Slice<Cell?<string>>,
    acceleratorTotalMemoryMiB: Cell?<RangeStruct<int64>>,
    acceleratorTypes: Slice<Cell?<string>>,
    allowedInstanceTypes: Slice<Cell?<string>>,
    bareMetal: Cell?<string>,
    baselineEbsBandwidthMbps: Cell?<RangeStruct<int64>>,
    burstablePerformance: Cell?<string>,
    cpuManufacturers: Slice<Cell?<string>>,
    excludedInstanceTypes: Slice<Cell?<string>>,
    instanceGenerations: Slice<Cell?<string>>,
    localStorage: Cell?<string>,
    localStorageTypes: Slice<Cell?<string>>,
    maxSpotPricePercentage: Cell?<int64>,
    memoryGiBPerVCpu: Cell?<RangeStruct<real>>,
    memoryMiB: Cell?<RangeStruct<int64>>,
    networkBandwidthGbps: Cell?<RangeStruct<real>>,
    networkInterfaceCount: Cell?<RangeStruct<int64>>,
    onDemandMaxPricePercentage: Cell?<int64>,
    requireHibernateSupport: Cell?<bool>,
    spotMaxPricePercentage: Cell?<int64>,
    totalLocalStorageGB: Cell?<RangeStruct<real>>,
    vCpuCount: Cell?<RangeStruct<int64>>)

  datatype ReservationsStruct = ReservationsStruct(
    reservationGroupArn: Cell?<string>,
    reservationPreference: Cell?<string>)

  datatype LocalStorageStruct = LocalStorageStruct(useLocalStorage: Cell?<bool>)

  datatype StorageStruct = StorageStruct(storageSizeGiB: Cell?<int64>)

  datatype AutoRepairStruct = AutoRepairStruct(actionsStatus: Cell?<string>)

  datatype OptimizationStruct = OptimizationStruct(scaleInAfter: Cell?<int64>)

  function FromOf(c: Cell?<ReferenceStruct>): Option<Reference> {
    if c == null then None else Some(Reference(ValueOf(c.value.name), ValueOf(c.value.namespace)))
  }

  ghost function FromGraph(c: Cell?<ReferenceStruct>): set<object> {
    if c == null then {} else {c} + NodeOf(c.value.name) + NodeOf(c.value.namespace)
  }

  function RefOf(c: Cell?<WrapperStruct>): Option<RefWrapper> {
    if c == null then None else Some(RefWrapper(FromOf(c.value.from)))
  }

  ghost function RefGraph(c: Cell?<WrapperStruct>): set<object> {
    if c == null then {} else {c} + FromGraph(c.value.from)
  }

  function RefsOf(cs: Slice<Cell?<WrapperStruct>>): Slice<Option<RefWrapper>> {
    if cs.None? then None
    else Some(seq(|cs.value|, i requires 0 <= i < |cs.value| => RefOf(cs.value[i])))
  }

  ghost function RefsGraph(cs: Slice<Cell?<WrapperStruct>>): set<object> {
    set i, o | 0 <= i < |Elements(cs)| && o in RefGraph(Elements(cs)[i]) :: o
  }

  function TagOf(c: Cell?<TagStruct>): Option<Tag> {
    if c == null then None else Some(Tag(ValueOf(c.value.key), ValueOf(c.value.value)))
  }

  ghost function TagGraph(c: Cell?<TagStruct>): set<object> {
    if c == null then {} else {c} + NodeOf(c.value.key) + NodeOf(c.value.value)
  }

  function TagListOf(cs: Slice<Cell?<TagStruct>>): TagList {
    if cs.None? then None
    else Some(seq(|cs.value|, i requires 0 <= i < |cs.value| => TagOf(cs.value[i])))
  }

  ghost function TagsGraph(cs: Slice<Cell?<TagStruct>>): set<object> {
    set i, o | 0 <= i < |Elements(cs)| && o in TagGraph(Elements(cs)[i]) :: o
  }

  function ScalingOf(c: Cell?<ScalingStruct>): Option<ManagedScaling> {
    if c == null then None
    else
      var m := c.value;
      Some(ManagedScaling(ValueOf(m.instanceWarmupPeriod), ValueOf(m.maximumScalingStepSize),
                          ValueOf(m.minimumScalingStepSize), ValueOf(m.status), ValueOf(m.targetCapacity)))
  }

  ghost function ScalingGraph(c: Cell?<ScalingStruct>): set<object> {
    if c == null then {}
    else
      var m := c.value;
      {c} + NodeOf(m.instanceWarmupPeriod) + NodeOf(m.maximumScalingStepSize) + NodeOf(m.minimumScalingStepSize)
      + NodeOf(m.status) + NodeOf(m.targetCapacity)
  }

  function RangeOf<T>(c: Cell?<RangeStruct<T>>): Option<Range<T>> {
    if c == null then None else Some(Range(ValueOf(c.value.max), ValueOf(c.value.min)))
  }

  ghost function RangeGraph<T>(c: Cell?<RangeStruct<T>>): set<object> {
    if c == null then {} else {c} + NodeOf(c.value.max) + NodeOf(c.value.min)
  }

  function RequirementsValue(q: RequirementsStruct): InstanceRequirements {
    InstanceRequirements(
      RangeOf(q.acceleratorCount), ValuesOf(q.acceleratorManufacturers), ValuesOf(q.acceleratorNames),
      RangeOf(q.acceleratorTotalMemoryMiB), ValuesOf(q.acceleratorTypes), ValuesOf(q.allowedInstanceTypes),
      ValueOf(q.bareMetal), RangeOf(q.baselineEbsBandwidthMbps), ValueOf(q.burstablePerformance),
      ValuesOf(q.cpuManufacturers), ValuesOf(q.excludedInstanceTypes), ValuesOf(q.instanceGenerations),
      ValueOf(q.localStorage), ValuesOf(q.localStorageTypes), ValueOf(q.maxSpotPricePercentage),
      RangeOf(q.memoryGiBPerVCpu), RangeOf(q.memoryMiB), RangeOf(q.networkBandwidthGbps),
      RangeOf(q.networkInterfaceCount), ValueOf(q.onDemandMaxPricePercentage), ValueOf(q.requireHibernateSupport),
      ValueOf(q.spotMaxPricePercentage), RangeOf(q.totalLocalStorageGB), RangeOf(q.vCpuCount))
  }

  function RequirementsOf(c: Cell?<RequirementsStruct>): Option<InstanceRequirements> {
    if c == null then None else Some(RequirementsValue(c.value))
  }

  ghost function RequirementsGraph(c: Cell?<RequirementsStruct>): set<object> {
    hide AcceleratorGraph, InstanceGraph, CapacityGraph;
    if c == null then {} else {c} + AcceleratorGraph(c.value) + InstanceGraph(c.value) + CapacityGraph(c.value)
  }

  ghost function AcceleratorGraph(q: RequirementsStruct): set<object> {
    RangeGraph(q.acceleratorCount) + NodesOf(q.acceleratorManufacturers) + NodesOf(q.acceleratorNames)
    + RangeGraph(q.acceleratorTotalMemoryMiB) + NodesOf(q.acceleratorTypes) + NodesOf(q.allowedInstanceTypes)
    + NodeOf(q.bareMetal)
  }

  ghost function InstanceGraph(q: RequirementsStruct): set<object> {
    RangeGraph(q.baselineEbsBandwidthMbps) + NodeOf(q.burstablePerformance) + NodesOf(q.cpuManufacturers)
    + NodesOf(q.excludedInstanceTypes) + NodesOf(q.instanceGenerations) + NodeOf(q.localStorage)
    + NodesOf(q.localStorageTypes) + NodeOf(q.maxSpotPricePercentage)
  }

  ghost function CapacityGraph(q: RequirementsStruct): set<object> {
    RangeGraph(q.memoryGiBPerVCpu) + RangeGraph(q.memoryMiB) + RangeGraph(q.networkBandwidthGbps)
    + RangeGraph(q.networkInterfaceCount) + NodeOf(q.onDemandMaxPricePercentage)
    + NodeOf(q.requireHibernateSupport) + NodeOf(q.spotMaxPricePercentage) + RangeGraph(q.totalLocalStorageGB)
    + RangeGraph(q.vCpuCount)
  }

  function ReservationsOf(c: Cell?<ReservationsStruct>): Option<CapacityReservations> {
    if c == null then None
    else Some(CapacityReservations(ValueOf(c.value.reservationGroupArn), ValueOf(c.value.reservationPreference)))
  }

  ghost function ReservationsGraph(c: Cell?<ReservationsStruct>): set<object> {
    if c == null then {} else {c} + NodeOf(c.value.reservationGroupArn) + NodeOf(c.value.reservationPreference)
  }

  function LocalStorageOf(c: Cell?<LocalStorageStruct>): Option<LocalStorageConfiguration> {
    if c == null then None else Some(LocalStorageConfiguration(ValueOf(c.value.useLocalStorage)))
  }

  ghost function LocalStorageGraph(c: Cell?<LocalStorageStruct>): set<object> {
    if c == null then {} else {c} + NodeOf(c.value.useLocalStorage)
  }

  function StorageOf(c: Cell?<StorageStruct>): Option<StorageConfiguration> {
    if c == null then None else Some(StorageConfiguration(ValueOf(c.value.storageSizeGiB)))
  }

  ghost function StorageGraph(c: Cell?<StorageStruct>): set<object> {
    if c == null then {} else {c} + NodeOf(c.value.storageSizeGiB)
  }

  function AutoRepairOf(c: Cell?<AutoRepairStruct>): Option<AutoRepairConfiguration> {
    if c == null then None else Some(AutoRepairConfiguration(ValueOf(c.value.actionsStatus)))
  }

  ghost function AutoRepairGraph(c: Cell?<AutoRepairStruct>): set<object> {
    if c == null then {} else {c} + NodeOf(c.value.actionsStatus)
  }

  function OptimizationOf(c: Cell?<OptimizationStruct>): Option<InfrastructureOptimization> {
    if c == null then None else Some(InfrastructureOptimization(ValueOf(c.value.scaleInAfter)))
  }

  ghost function OptimizationGraph(c: Cell?<OptimizationStruct>): set<object> {
    if c == null then {} else {c} + NodeOf(c.value.scaleInAfter)
  }

  method CopyRef(c: Cell?<WrapperStruct>) returns (out: Cell?<WrapperStruct>)
    ensures RefOf(out) == RefOf(c) && fresh(RefGraph(out))
  {
    if c == null {
      return null;
    }
    var from: Cell?<ReferenceStruct> := null;
    if c.value.from != null {
      var name := CopyCell(c.value.from.value.name);
      var namespace := CopyCell(c.value.from.value.namespace);
      from := new Cell(ReferenceStruct(name, namespace));
    }
    out := new Cell(WrapperStruct(from));
  }

  method CopyRefs(cs: Slice<Cell?<WrapperStruct>>) returns (out: Slice<Cell?<WrapperStruct>>)
    ensures RefsOf(out) == RefsOf(cs) && fresh(RefsGraph(out))
  {
    if cs.None? {
      return None;
    }
    hide RefOf, RefGraph;
    var copies: seq<Cell?<WrapperStruct>> := [];
    for i := 0 to |cs.value|
      invariant |copies| == i
      invariant forall j :: 0 <= j < i ==> RefOf(copies[j]) == RefOf(cs.value[j])
      invariant forall j :: 0 <= j < i ==> fresh(RefGraph(copies[j]))
    {
      var copy := CopyRef(cs.value[i]);
      copies := copies + [copy];
    }
    out := Some(copies);
    assert RefsOf(out).value == RefsOf(cs).value;
  }

  method CopyTag(c: Cell?<TagStruct>) returns (out: Cell?<TagStruct>)
    ensures TagOf(out) == TagOf(c) && fresh(TagGraph(out))
  {
    if c == null {
      return null;
    }
    var key := CopyCell(c.value.key);
    var value := CopyCell(c.value.value);
    out := new Cell(TagStruct(key, value));
  }

  method CopyTags(cs: Slice<Cell?<TagStruct>>) returns (out: Slice<Cell?<TagStruct>>)
    ensures TagListOf(out) == TagListOf(cs) && fresh(TagsGraph(out))
  {
    if cs.None? {
      return None;
    }
    hide TagOf, TagGraph;
    var copies: seq<Cell?<TagStruct>> := [];
    for i := 0 to |cs.value|
      invariant |copies| == i
      invariant forall j :: 0 <= j < i ==> TagOf(copies[j]) == TagOf(cs.value[j])
      invariant forall j :: 0 <= j < i ==> fresh(TagGraph(copies[j]))
    {
      var copy := CopyTag(cs.value[i]);
      copies := copies + [copy];
    }
    out := Some(copies);
    assert TagListOf(out).value == TagListOf(cs).value;
  }

  method CopyScaling(c: Cell?<ScalingStruct>) returns (out: Cell?<ScalingStruct>)
    ensures ScalingOf(out) == ScalingOf(c) && fresh(ScalingGraph(out))
  {
    if c == null {
      return null;
    }
    var warmup := CopyCell(c.value.instanceWarmupPeriod);
    var maxStep := CopyCell(c.value.maximumScalingStepSize);
    var minStep := CopyCell(c.value.minimumScalingStepSize);
    var status := CopyCell(c.value.status);
    var target := CopyCell(c.value.targetCapacity);
    out := new Cell(ScalingStruct(warmup, maxStep, minStep, status, target));
  }

  method CopyRange<T>(c: Cell?<RangeStruct<T>>) returns (out: Cell?<RangeStruct<T>>)
    ensures RangeOf(out) == RangeOf(c) && fresh(RangeGraph(out))
  {
    if c == null {
      return null;
    }
    var max := CopyCell(c.value.max);
    var min := CopyCell(c.value.min);
    out := new Cell(RangeStruct(max, min));
  }

  method CopyAccelerators(q: RequirementsStruct) returns (p: RequirementsStruct)
    ensures RequirementsValue(p) == RequirementsValue(q) && fresh(AcceleratorGraph(p))
    ensures InstanceGraph(p) == InstanceGraph(q) && CapacityGraph(p) == CapacityGraph(q)
  {
    hide ValueOf, NodeOf, ValuesOf, NodesOf, RangeOf, RangeGraph;
    var acceleratorCount := CopyRange(q.acceleratorCount);
    var acceleratorManufacturers := CopyCells(q.acceleratorManufacturers);
    var acceleratorNames := CopyCells(q.acceleratorNames);
    var acceleratorTotalMemoryMiB := CopyRange(q.acceleratorTotalMemoryMiB);
    var acceleratorTypes := CopyCells(q.acceleratorTypes);
    var allowedInstanceTypes := CopyCells(q.allowedInstanceTypes);
    var bareMetal := CopyCell(q.bareMetal);
    p := q.(acceleratorCount := acceleratorCount, acceleratorManufacturers := acceleratorManufacturers,
            acceleratorNames := acceleratorNames, acceleratorTotalMemoryMiB := acceleratorTotalMemoryMiB,
            acceleratorTypes := acceleratorTypes, allowedInstanceTypes := allowedInstanceTypes, bareMetal := bareMetal);
  }

  method CopyInstances(q: RequirementsStruct) returns (p: RequirementsStruct)
    ensures RequirementsValue(p) == RequirementsValue(q) && fresh(InstanceGraph(p))
    ensures AcceleratorGraph(p) == AcceleratorGraph(q) && CapacityGraph(p) == CapacityGraph(q)
  {
    hide ValueOf, NodeOf, ValuesOf, NodesOf, RangeOf, RangeGraph;
    var baselineEbsBandwidthMbps := CopyRange(q.baselineEbsBandwidthMbps);
    var burstablePerformance := CopyCell(q.burstablePerformance);
    var cpuManufacturers := CopyCells(q.cpuManufacturers);
    var excludedInstanceTypes := CopyCells(q.excludedInstanceTypes);
    var instanceGenerations := CopyCells(q.instanceGenerations);
    var localStorage := CopyCell(q.localStorage);
    var localStorageTypes := CopyCells(q.localStorageTypes);
    var maxSpotPricePercentage := CopyCell(q.maxSpotPricePercentage);
    p := q.(baselineEbsBandwidthMbps := baselineEbsBandwidthMbps, burstablePerformance := burstablePerformance,
            cpuManufacturers := cpuManufacturers, excludedInstanceTypes := excludedInstanceTypes,
            instanceGenerations := instanceGenerations, localStorage := localStorage,
            localStorageTypes := localStorageTypes, maxSpotPricePercentage := maxSpotPricePercentage);
  }

  method CopyCapacity(q: RequirementsStruct) returns (p: RequirementsStruct)
    ensures RequirementsValue(p) == RequirementsValue(q) && fresh(CapacityGraph(p))
    ensures AcceleratorGraph(p) == AcceleratorGraph(q) && InstanceGraph(p) == InstanceGraph(q)
  {
    hide ValueOf, NodeOf, ValuesOf, NodesOf, RangeOf, RangeGraph;
    var memoryGiBPerVCpu := CopyRange(q.memoryGiBPerVCpu);
    var memoryMiB := CopyRange(q.memoryMiB);
    var networkBandwidthGbps := CopyRange(q.networkBandwidthGbps);
    var networkInterfaceCount := CopyRange(q.networkInterfaceCount);
    var onDemandMaxPricePercentage := CopyCell(q.onDemandMaxPricePercentage);
    var requireHibernateSupport := CopyCell(q.requireHibernateSupport);
    var spotMaxPricePercentage := CopyCell(q.spotMaxPricePercentage);
    var totalLocalStorageGB := CopyRange(q.totalLocalStorageGB);
    var vCpuCount := CopyRange(q.vCpuCount);
    p := q.(memoryGiBPerVCpu := memoryGiBPerVCpu, memoryMiB := memoryMiB,
            networkBandwidthGbps := networkBandwidthGbps, networkInterfaceCount := networkInterfaceCount,
            onDemandMaxPricePercentage := onDemandMaxPricePercentage,
            requireHibernateSupport := requireHibernateSupport, spotMaxPricePercentage := spotMaxPricePercentage,
            totalLocalStorageGB := totalLocalStorageGB, vCpuCount := vCpuCount);
  }

  /** InstanceRequirementsRequest, its 24 fields in three parts. */
  method CopyRequirements(c: Cell?<RequirementsStruct>) returns (out: Cell?<RequirementsStruct>)
    ensures RequirementsOf(out) == RequirementsOf(c) && fresh(RequirementsGraph(out))
  {
    hide RequirementsValue, AcceleratorGraph, InstanceGraph, CapacityGraph;
    if c == null {
      return null;
    }
    var p1 := CopyAccelerators(c.value);
    var p2 := CopyInstances(p1);
    var p3 := CopyCapacity(p2);
    out := new Cell(p3);
  }

  method CopyReservations(c: Cell?<ReservationsStruct>) returns (out: Cell?<ReservationsStruct>)
    ensures ReservationsOf(out) == ReservationsOf(c) && fresh(ReservationsGraph(out))
  {
    if c == null {
      return null;
    }
    var arn := CopyCell(c.value.reservationGroupArn);
    var preference := CopyCell(c.value.reservationPreference);
    out := new Cell(ReservationsStruct(arn, preference));
  }

  method CopyLocalStorage(c: Cell?<LocalStorageStruct>) returns (out: Cell?<LocalStorageStruct>)
    ensures LocalStorageOf(out) == LocalStorageOf(c) && fresh(LocalStorageGraph(out))
  {
    if c == null {
      return null;
    }
    var use := CopyCell(c.value.useLocalStorage);
    out := new Cell(LocalStorageStruct(use));
  }

  method CopyStorage(c: Cell?<StorageStruct>) returns (out: Cell?<StorageStruct>)
    ensures StorageOf(out) == StorageOf(c) && fresh(StorageGraph(out))
  {
    if c == null {
      return null;
    }
    var size := CopyCell(c.value.storageSizeGiB);
    out := new Cell(StorageStruct(size));
  }

  method CopyAutoRepair(c: Cell?<AutoRepairStruct>) returns (out: Cell?<AutoRepairStruct>)
    ensures AutoRepairOf(out) == AutoRepairOf(c) && fresh(AutoRepairGraph(out))
  {
    if c == null {
      return null;
    }
    var status := CopyCell(c.value.actionsStatus);
    out := new Cell(AutoRepairStruct(status));
  }

  method CopyOptimization(c: Cell?<OptimizationStruct>) returns (out: Cell?<OptimizationStruct>)
    ensures OptimizationOf(out) == OptimizationOf(c) && fresh(OptimizationGraph(out))
  {
    if c == null {
      return null;
    }
    var after := CopyCell(c.value.scaleInAfter);
    out := new Cell(OptimizationStruct(after));
  }

  // ---- structs that are updated in place ----

  class NetworkNode {
    var securityGroupRefs: Slice<Cell?<WrapperStruct>>
    var securityGroups: Slice<Cell?<string>>
    var subnetRefs: Slice<Cell?<WrapperStruct>>
    var subnets: Slice<Cell?<string>>

    constructor ()
      ensures Value() == EMPTY_NETWORK && Graph() == {this}
    {
      securityGroupRefs, securityGroups, subnetRefs, subnets := None, None, None, None;
    }

    ghost function Graph(): set<object>
      reads this
    {
      {this} + RefsGraph(securityGroupRefs) + NodesOf(securityGroups) + RefsGraph(subnetRefs) + NodesOf(subnets)
    }

    function Value(): NetworkConfiguration
      reads this
    {
      NetworkConfiguration(RefsOf(securityGroupRefs), ValuesOf(securityGroups), RefsOf(subnetRefs), ValuesOf(subnets))
    }

    method DeepCopy() returns (out: NetworkNode)
      ensures out.Value() == old(Value()) && fresh(out.Graph())
    {
      hide RefsOf, RefsGraph, ValuesOf, NodesOf;
      var groupRefs := CopyRefs(securityGroupRefs);
      var groups := CopyCells(securityGroups);
      var netRefs := CopyRefs(subnetRefs);
      var nets := CopyCells(subnets);
      out := new NetworkNode();
      out.securityGroupRefs, out.securityGroups := groupRefs, groups;
      out.subnetRefs, out.subnets := netRefs, nets;
    }
  }

  class TemplateNode {
    var capacityOptionType: Cell?<string>
    var capacityReservations: Cell?<ReservationsStruct>
    var profileArn: Cell?<string>
    var profileRef: Cell?<WrapperStruct>
    var fipsEnabled: Cell?<bool>
    var tagsPropagation: Cell?<bool>
    var requirements: Cell?<RequirementsStruct>
    var localStorage: Cell?<LocalStorageStruct>
    var monitoring: Cell?<string>
    var network: NetworkNode?
    var storage: Cell?<StorageStruct>

    constructor ()
      ensures Value() == EMPTY_TEMPLATE && Graph() == {this} && network == null
    {
      capacityOptionType, capacityReservations, profileArn, profileRef := null, null, null, null;
      fipsEnabled, tagsPropagation, requirements, localStorage := null, null, null, null;
      monitoring, network, storage := null, null, null;
    }

    constructor Of(capacityOptionType: Cell?<string>, capacityReservations: Cell?<ReservationsStruct>,
                   profileArn: Cell?<string>, profileRef: Cell?<WrapperStruct>, fipsEnabled: Cell?<bool>,
                   tagsPropagation: Cell?<bool>, requirements: Cell?<RequirementsStruct>,
                   localStorage: Cell?<LocalStorageStruct>, monitoring: Cell?<string>,
                   network: NetworkNode?, storage: Cell?<StorageStruct>)
      ensures this.capacityOptionType == capacityOptionType && this.capacityReservations == capacityReservations
      ensures this.profileArn == profileArn && this.profileRef == profileRef && this.fipsEnabled == fipsEnabled
      ensures this.tagsPropagation == tagsPropagation && this.requirements == requirements
      ensures this.localStorage == localStorage && this.monitoring == monitoring
      ensures this.network == network && this.storage == storage
    {
      this.capacityOptionType, this.capacityReservations := capacityOptionType, capacityReservations;
      this.profileArn, this.profileRef, this.fipsEnabled := profileArn, profileRef, fipsEnabled;
      this.tagsPropagation, this.requirements, this.localStorage := tagsPropagation, requirements, localStorage;
      this.monitoring, this.network, this.storage := monitoring, network, storage;
    }

    /** The pointed-to structs that are never changed. */
    ghost function Leaves(): set<object>
      reads this
    {
      NodeOf(capacityOptionType) + ReservationsGraph(capacityReservations) + NodeOf(profileArn)
      + RefGraph(profileRef) + NodeOf(fipsEnabled) + NodeOf(tagsPropagation) + RequirementsGraph(requirements)
      + LocalStorageGraph(localStorage) + NodeOf(monitoring) + StorageGraph(storage)
    }

    ghost function Graph(): set<object>
      reads this, network
    {
      {this} + Leaves() + if network == null then {} else network.Graph()
    }

    function Value(): InstanceLaunchTemplate
      reads this, network
    {
      InstanceLaunchTemplate(
        ValueOf(capacityOptionType), ReservationsOf(capacityReservations), ValueOf(profileArn), RefOf(profileRef),
        ValueOf(fipsEnabled), ValueOf(tagsPropagation), RequirementsOf(requirements), LocalStorageOf(localStorage),
        ValueOf(monitoring), if network == null then None else Some(network.Value()), StorageOf(storage))
    }

    method DeepCopy() returns (out: TemplateNode)
      ensures out.Value() == old(Value()) && fresh(out.Graph())
    {
      hide NetworkNode.Value, NetworkNode.Graph, ValueOf, NodeOf, RefOf, RefGraph, RequirementsOf, RequirementsGraph;
      hide ReservationsOf, ReservationsGraph, LocalStorageOf, LocalStorageGraph, StorageOf, StorageGraph;
      hide Leaves, Graph;
      var optionType := CopyCell(capacityOptionType);
      var reservations := CopyReservations(capacityReservations);
      var arn := CopyCell(profileArn);
      var ref := CopyRef(profileRef);
      var fips := CopyCell(fipsEnabled);
      var propagation := CopyCell(tagsPropagation);
      var required := CopyRequirements(requirements);
      var local := CopyLocalStorage(localStorage);
      var monitored := CopyCell(monitoring);
      var net: NetworkNode? := null;
      if network != null {
        net := network.DeepCopy();
      }
      var stored := CopyStorage(storage);
      out := new TemplateNode.Of(optionType, reservations, arn, ref, fips, propagation, required, local, monitored, net,
                                 stored);
      AllNew(out);
    }
  }

  /** A template whose parts are new is entirely new. */
  twostate lemma AllNew(new t: TemplateNode)
    requires fresh(t) && fresh(NodeOf(t.capacityOptionType)) && fresh(ReservationsGraph(t.capacityReservations))
    requires fresh(NodeOf(t.profileArn)) && fresh(RefGraph(t.profileRef)) && fresh(NodeOf(t.fipsEnabled))
    requires fresh(NodeOf(t.tagsPropagation)) && fresh(RequirementsGraph(t.requirements))
    requires fresh(LocalStorageGraph(t.localStorage)) && fresh(NodeOf(t.monitoring))
    requires t.network != null ==> fresh(t.network.Graph())
    requires fresh(StorageGraph(t.storage))
    ensures fresh(t.Graph())
  {
  }

  class MipNode {
    var autoRepair: Cell?<AutoRepairStruct>
    var optimization: Cell?<OptimizationStruct>
    var roleArn: Cell?<string>
    var roleRef: Cell?<WrapperStruct>
    var template: TemplateNode?
    var propagateTags: Cell?<string>

    constructor ()
      ensures Value() == EMPTY_MIP && Graph() == {this} && template == null
    {
      autoRepair, optimization, roleArn, roleRef, template, propagateTags := null, null, null, null, null, null;
    }

    constructor Of(autoRepair: Cell?<AutoRepairStruct>, optimization: Cell?<OptimizationStruct>,
                   roleArn: Cell?<string>, roleRef: Cell?<WrapperStruct>, template: TemplateNode?,
                   propagateTags: Cell?<string>)
      ensures this.autoRepair == autoRepair && this.optimization == optimization && this.roleArn == roleArn
      ensures this.roleRef == roleRef && this.template == template && this.propagateTags == propagateTags
    {
      this.autoRepair, this.optimization, this.roleArn := autoRepair, optimization, roleArn;
      this.roleRef, this.template, this.propagateTags := roleRef, template, propagateTags;
    }

    ghost function Leaves(): set<object>
      reads this
    {
      AutoRepairGraph(autoRepair) + OptimizationGraph(optimization) + NodeOf(roleArn) + RefGraph(roleRef)
      + NodeOf(propagateTags)
    }

    ghost function Graph(): set<object>
      reads this, template, if template == null then null else template.network
    {
      {this} + Leaves() + if template == null then {} else template.Graph()
    }

    function Value(): ManagedInstancesProvider
      reads this, template, if template == null then null else template.network
    {
      ManagedInstancesProvider(
        AutoRepairOf(autoRepair), OptimizationOf(optimization), ValueOf(roleArn), RefOf(roleRef),
        if template == null then None else Some(template.Value()), ValueOf(propagateTags))
    }

    method DeepCopy() returns (out: MipNode)
      ensures out.Value() == old(Value()) && fresh(out.Graph())
    {
      hide TemplateNode.Value, TemplateNode.Graph, ValueOf, NodeOf, RefOf, RefGraph;
      hide AutoRepairOf, AutoRepairGraph, OptimizationOf, OptimizationGraph;
      var repair := CopyAutoRepair(autoRepair);
      var optimized := CopyOptimization(optimization);
      var arn := CopyCell(roleArn);
      var ref := CopyRef(roleRef);
      var launch: TemplateNode? := null;
      if template != null {
        launch := template.DeepCopy();
      }
      var propagated := CopyCell(propagateTags);
      out := new MipNode.Of(repair, optimized, arn, ref, launch, propagated);
    }
  }

  class AsgpNode {
    var arn: Cell?<string>
    var ref: Cell?<WrapperStruct>
    var managedDraining: Cell?<string>
    var managedScaling: Cell?<ScalingStruct>
    var managedTerminationProtection: Cell?<string>

    constructor ()
      ensures Value() == EMPTY_ASGP && Graph() == {this}
    {
      arn, ref, managedDraining, managedScaling, managedTerminationProtection := null, null, null, null, null;
    }

    ghost function Graph(): set<object>
      reads this
    {
      {this} + NodeOf(arn) + RefGraph(ref) + NodeOf(managedDraining) + ScalingGraph(managedScaling)
      + NodeOf(managedTerminationProtection)
    }

    function Value(): AutoScalingGroupProvider
      reads this
    {
      AutoScalingGroupProvider(ValueOf(arn), RefOf(ref), ValueOf(managedDraining), ScalingOf(managedScaling),
                               ValueOf(managedTerminationProtection))
    }

    method DeepCopy() returns (out: AsgpNode)
      ensures out.Value() == old(Value()) && fresh(out.Graph())
    {
      hide ValueOf, NodeOf, RefOf, RefGraph, ScalingOf, ScalingGraph;
      var name := CopyCell(arn);
      var wrapper := CopyRef(ref);
      var draining := CopyCell(managedDraining);
      var scaling := CopyScaling(managedScaling);
      var protection := CopyCell(managedTerminationProtection);
      out := new AsgpNode();
      out.arn, out.ref, out.managedDraining := name, wrapper, draining;
      out.managedScaling, out.managedTerminationProtection := scaling, protection;
    }
  }

  class MetadataNode {
    var arn: Cell?<string>
    var ownerAccountId: Cell?<string>
    var partition: Cell?<string>
    var region: Cell?<string>

    constructor ()
      ensures Value() == ResourceMetadata(None, None, None, None) && Graph() == {this}
    {
      arn, ownerAccountId, partition, region := null, null, null, null;
    }

    ghost function Graph(): set<object>
      reads this
    {
      {this} + NodeOf(arn) + NodeOf(ownerAccountId) + NodeOf(partition) + NodeOf(region)
    }

    function Value(): ResourceMetadata
      reads this
    {
      ResourceMetadata(ValueOf(arn), ValueOf(ownerAccountId), ValueOf(partition), ValueOf(region))
    }

    method DeepCopy() returns (out: MetadataNode)
      ensures out.Value() == old(Value()) && fresh(out.Graph())
    {
      hide ValueOf, NodeOf;
      var name := CopyCell(arn);
      var account := CopyCell(ownerAccountId);
      var part := CopyCell(partition);
      var place := CopyCell(region);
      out := new MetadataNode();
      out.arn, out.ownerAccountId, out.partition, out.region := name, account, part, place;
    }
  }

  class ConditionNode {
    const kind: ConditionType
    var status: ConditionStatus
    var message: Cell?<string>
    const reason: Cell?<string>

    constructor (kind: ConditionType, status: ConditionStatus, message: Cell?<string>, reason: Cell?<string>)
      ensures this.kind == kind && this.status == status && this.message == message && this.reason == reason
    {
      this.kind, this.status, this.message, this.reason := kind, status, message, reason;
    }

    ghost function Graph(): set<object>
      reads this
    {
      {this} + NodeOf(message) + NodeOf(reason)
    }

    function Value(): Condition
      reads this
    {
      Condition(kind, status, ValueOf(message), ValueOf(reason))
    }

    method DeepCopy() returns (out: ConditionNode)
      ensures out.Value() == old(Value()) && fresh(out.Graph())
    {
      var text := CopyCell(message);
      var cause := CopyCell(reason);
      out := new ConditionNode(kind, status, text, cause);
    }
  }

  ghost function ConditionValues(cs: seq<ConditionNode?>): seq<Option<Condition>>
    reads cs
  {
    seq(|cs|, i requires 0 <= i < |cs| reads cs => if cs[i] == null then None else Some(cs[i].Value()))
  }

  ghost function ConditionsGraph(cs: seq<ConditionNode?>): set<object>
    reads cs
  {
    set i, o | 0 <= i < |cs| && cs[i] != null && o in cs[i].Graph() :: o
  }

  ghost predicate Unshared(cs: seq<ConditionNode?>) {
    forall i, j :: 0 <= i < j < |cs| && cs[i] != null ==> cs[i] != cs[j]
  }

  method CopyConditions(cs: Slice<ConditionNode?>) returns (out: Slice<ConditionNode?>)
    ensures out.Some? <==> cs.Some?
    ensures ConditionValues(Elements(out)) == ConditionValues(Elements(cs))
    ensures fresh(ConditionsGraph(Elements(out))) && Unshared(Elements(out))
  {
    if cs.None? {
      return None;
    }
    hide ConditionNode.Value, ConditionNode.Graph;
    var copies: seq<ConditionNode?> := [];
    for i := 0 to |cs.value|
      invariant |copies| == i
      invariant forall j :: 0 <= j < i ==> (copies[j] == null <==> cs.value[j] == null)
      invariant forall j :: 0 <= j < i && copies[j] != null ==> copies[j].Value() == cs.value[j].Value()
      invariant forall j :: 0 <= j < i && copies[j] != null ==> fresh(copies[j]) && fresh(copies[j].Graph())
      invariant Unshared(copies)
    {
      var copy: ConditionNode? := null;
      if cs.value[i] != null {
        copy := cs.value[i].DeepCopy();
        InOwnGraph(copy);
      }
      copies := copies + [copy];
    }
    out := Some(copies);
  }

  lemma InOwnGraph(c: ConditionNode)
    ensures c in c.Graph()
  {
  }

  /** The Spec struct of a custom resource. */
  class SpecNode {
    var asgp: AsgpNode?
    var cluster: Cell?<string>
    var clusterRef: Cell?<WrapperStruct>
    var mip: MipNode?
    var name: Cell?<string>
    var tags: Slice<Cell?<TagStruct>>

    constructor (asgp: AsgpNode?, cluster: Cell?<string>, clusterRef: Cell?<WrapperStruct>, mip: MipNode?,
                 name: Cell?<string>, tags: Slice<Cell?<TagStruct>>)
      ensures this.asgp == asgp && this.cluster == cluster && this.clusterRef == clusterRef
      ensures this.mip == mip && this.name == name && this.tags == tags
    {
      this.asgp, this.cluster, this.clusterRef, this.mip := asgp, cluster, clusterRef, mip;
      this.name, this.tags := name, tags;
    }

    ghost function Leaves(): set<object>
      reads this
    {
      NodeOf(cluster) + RefGraph(clusterRef) + NodeOf(name) + TagsGraph(tags)
    }

    ghost function Graph(): set<object>
      reads this, asgp, mip, if mip == null then null else mip.template
      reads if mip == null || mip.template == null then null else mip.template.network
    {
      {this} + Leaves() + (if asgp == null then {} else asgp.Graph()) + (if mip == null then {} else mip.Graph())
    }

    function Value(): Spec
      reads this, asgp, mip, if mip == null then null else mip.template
      reads if mip == null || mip.template == null then null else mip.template.network
    {
      Spec(if asgp == null then None else Some(asgp.Value()), ValueOf(cluster), RefOf(clusterRef),
           if mip == null then None else Some(mip.Value()), ValueOf(name), TagListOf(tags))
    }

    method DeepCopy() returns (out: SpecNode)
      ensures out.Value() == old(Value()) && fresh(out.Graph())
    {
      hide AsgpNode.Value, AsgpNode.Graph, MipNode.Value, MipNode.Graph;
      hide ValueOf, NodeOf, RefOf, RefGraph, TagListOf, TagsGraph;
      var group: AsgpNode? := null;
      if asgp != null {
        group := asgp.DeepCopy();
      }
      var place := CopyCell(cluster);
      var ref := CopyRef(clusterRef);
      var managed: MipNode? := null;
      if mip != null {
        managed := mip.DeepCopy();
      }
      var title := CopyCell(name);
      var tagged := CopyTags(tags);
      out := new SpecNode(group, place, ref, managed, title, tagged);
    }
  }

  /** The Status struct of a custom resource. */
  class StatusNode {
    var metadata: MetadataNode?
    var conditions: Slice<ConditionNode?>
    var status: Cell?<string>
    var kind: Cell?<string>
    var updateStatus: Cell?<string>
    var updateStatusReason: Cell?<string>

    constructor (metadata: MetadataNode?, conditions: Slice<ConditionNode?>, status: Cell?<string>,
                 kind: Cell?<string>, updateStatus: Cell?<string>, updateStatusReason: Cell?<string>)
      ensures this.metadata == metadata && this.conditions == conditions && this.status == status
      ensures this.kind == kind && this.updateStatus == updateStatus && this.updateStatusReason == updateStatusReason
    {
      this.metadata, this.conditions, this.status, this.kind := metadata, conditions, status, kind;
      this.updateStatus, this.updateStatusReason := updateStatus, updateStatusReason;
    }

    ghost function Leaves(): set<object>
      reads this
    {
      NodeOf(status) + NodeOf(kind) + NodeOf(updateStatus) + NodeOf(updateStatusReason)
    }

    ghost function Graph(): set<object>
      reads this, metadata, Elements(conditions)
    {
      {this} + Leaves() + (if metadata == null then {} else metadata.Graph()) + ConditionsGraph(Elements(conditions))
    }

    ghost function Value(): Status
      reads this, metadata, Elements(conditions)
    {
      Status(if metadata == null then None else Some(metadata.Value()),
             if conditions.None? then None else Some(ConditionValues(Elements(conditions))),
             ValueOf(status), ValueOf(kind), ValueOf(updateStatus), ValueOf(updateStatusReason))
    }

    method DeepCopy() returns (out: StatusNode)
      ensures out.Value() == old(Value()) && fresh(out.Graph())
      ensures Unshared(Elements(out.conditions))
    {
      hide MetadataNode.Value, MetadataNode.Graph, ValueOf, NodeOf, ConditionsGraph;
      var meta: MetadataNode? := null;
      if metadata != null {
        meta := metadata.DeepCopy();
      }
      var conds := CopyConditions(conditions);
      var state := CopyCell(status);
      var form := CopyCell(kind);
      var update := CopyCell(updateStatus);
      var reason := CopyCell(updateStatusReason);
      out := new StatusNode(meta, conds, state, form, update, reason);
    }
  }

  twostate lemma SameStatus(t: StatusNode)
    requires unchanged(t) && (t.metadata != null ==> unchanged(t.metadata))
    requires forall c :: c in Elements(t.conditions) && c != null ==> unchanged(c)
    ensures t.Value() == old(t.Value()) && t.Graph() == old(t.Graph())
  {
    var cs := Elements(t.conditions);
    forall i | 0 <= i < |cs|
      ensures ConditionValues(cs)[i] == old(ConditionValues(cs))[i]
      ensures cs[i] != null ==> cs[i].Graph() == old(cs[i].Graph())
    {
      assert cs[i] in cs;
    }
    assert ConditionValues(cs) == old(ConditionValues(cs));
    assert ConditionsGraph(cs) == old(ConditionsGraph(cs));
  }

  /** The custom resource, with the Spec and Status structs that are part of it. */
  class CapacityProviderNode {
    const namespace: string
    const spec: SpecNode
    const status: StatusNode

    constructor (namespace: string, spec: SpecNode, status: StatusNode)
      ensures this.namespace == namespace && this.spec == spec && this.status == status
    {
      this.namespace, this.spec, this.status := namespace, spec, status;
    }

    ghost function Graph(): set<object>
      reads spec, spec.asgp, spec.mip, if spec.mip == null then null else spec.mip.template
      reads if spec.mip == null || spec.mip.template == null then null else spec.mip.template.network
      reads status, status.metadata, Elements(status.conditions)
    {
      {this} + spec.Graph() + status.Graph()
    }

    ghost function Value(): CapacityProvider
      reads spec, spec.asgp, spec.mip, if spec.mip == null then null else spec.mip.template
      reads if spec.mip == null || spec.mip.template == null then null else spec.mip.template.network
      reads status, status.metadata, Elements(status.conditions)
    {
      CapacityProvider(namespace, spec.Value(), status.Value())
    }

    /** The copy stands for the same value and shares no object with anything; in particular
        a condition that occurs twice is two objects in the copy. */
    method DeepCopy() returns (out: CapacityProviderNode)
      ensures out.Value() == old(Value())
      ensures fresh(out.Graph())
      ensures Unshared(Elements(out.status.conditions))
    {
      hide SpecNode.Value, SpecNode.Graph, StatusNode.Value, StatusNode.Graph;
      var s := spec.DeepCopy();
      SameStatus(status);
      var t := status.DeepCopy();
      out := new CapacityProviderNode(namespace, s, t);
    }
  }
}
