/** The cross-resource reference pipeline of pkg/resource/capacity_provider/references.go,
    on values: what clearing, ensuring, validating and resolving do to a Spec, and the
    laws that tie the four together. The methods that do this in place are in
    ReferenceMethods.dfy. */
module References {
  import opened ApiTypes

  datatype Kind = AutoScalingGroup | Cluster | Role | InstanceProfile | SecurityGroup | Subnet

  datatype RefError =
    | ReferenceAndId(field: Kind)
    | NameMissing(field: Kind)
    | CrossNamespace(reason: string)
    | ReadFailed(reason: string)
    | ReferenceTerminal(kind: Kind, namespace: string, name: string)
    | ReferenceNotSynced(kind: Kind, namespace: string, name: string)
    | ReferenceMissingTarget(kind: Kind, namespace: string, name: string)

  datatype Answer<+T> = Got(value: T) | Failed(reason: string)

  /** What a resolver can see of a referenced object; arn is None when the
      metadata or the ARN in it is nil. */
  datatype RefObject = RefObject(
    conditions: seq<Condition>,
    arn: Option<string>,
    specName: Option<string>,
    statusId: Option<string>,
    statusSubnetId: Option<string>)

  /** The API state during one resolution, and the namespace check, both arbitrary. */
  datatype World = World(
    crossNamespace: (string, Option<string>, string) -> Answer<string>,
    get: (Kind, string, string) -> Answer<RefObject>)

  // ---- what one reference resolves to ----

  function Target(kind: Kind, o: RefObject): Option<string> {
    match kind
    case AutoScalingGroup => o.arn
    case Cluster => o.specName
    case Role => o.arn
    case InstanceProfile => o.arn
    case SecurityGroup => o.statusId
    case Subnet => o.statusSubnetId
  }

  function StateError(kind: Kind, namespace: string, name: string, o: RefObject): Option<RefError> {
    if HasTrue(o.conditions, Terminal) then Some(ReferenceTerminal(kind, namespace, name))
    else if !HasTrue(o.conditions, ResourceSynced) then Some(ReferenceNotSynced(kind, namespace, name))
    else if Target(kind, o).None? then Some(ReferenceMissingTarget(kind, namespace, name))
    else None
  }

  datatype Resolution = Resolved(id: string) | Unresolved(error: RefError)

  function ResolveOne(w: World, home: string, kind: Kind, r: Reference): Resolution {
    if r.name.None? || r.name.value == "" then Unresolved(NameMissing(kind))
    else
      var namespace := w.crossNamespace(home, r.namespace, r.name.value);
      if namespace.Failed? then Unresolved(CrossNamespace(namespace.reason))
      else
        var o := w.get(kind, namespace.value, r.name.value);
        if o.Failed? then Unresolved(ReadFailed(o.reason))
        else
          var e := StateError(kind, namespace.value, r.name.value, o.value);
          if e.Some? then Unresolved(e.value) else Resolved(Target(kind, o.value).value)
  }

  // ---- the four operations ----

  predicate HasFrom(r: Option<RefWrapper>) {
    r.Some? && r.value.from.Some?
  }

  function ClearAsgp(a: AutoScalingGroupProvider): AutoScalingGroupProvider {
    if a.ref.Some? then a.(arn := None) else a
  }

  function ClearNetwork(n: NetworkConfiguration): NetworkConfiguration {
    n.(securityGroups := if Elements(n.securityGroupRefs) != [] then None else n.securityGroups,
       subnets := if Elements(n.subnetRefs) != [] then None else n.subnets)
  }

  function ClearTemplate(t: InstanceLaunchTemplate): InstanceLaunchTemplate {
    t.(profileArn := if t.profileRef.Some? then None else t.profileArn,
       network := if t.network.Some? then Some(ClearNetwork(t.network.value)) else None)
  }

  function ClearMip(m: ManagedInstancesProvider): ManagedInstancesProvider {
    m.(roleArn := if m.roleRef.Some? then None else m.roleArn,
       template := if m.template.Some? then Some(ClearTemplate(m.template.value)) else None)
  }

  /** ClearResolvedReferences. */
  function Clear(s: Spec): Spec {
    s.(asgp := if s.asgp.Some? then Some(ClearAsgp(s.asgp.value)) else None,
       cluster := if s.clusterRef.Some? then None else s.cluster,
       mip := if s.mip.Some? then Some(ClearMip(s.mip.value)) else None)
  }

  /** What clearing does to one field. */
  function ClearAt(kind: Kind, s: Spec): Spec {
    match kind
    case AutoScalingGroup => if s.asgp.Some? then s.(asgp := Some(ClearAsgp(s.asgp.value))) else s
    case Cluster => if s.clusterRef.Some? then s.(cluster := None) else s
    case Role =>
      if s.mip.Some? && s.mip.value.roleRef.Some? then s.(mip := Some(s.mip.value.(roleArn := None))) else s
    case InstanceProfile =>
      if TemplateOf(s).Some? && TemplateOf(s).value.profileRef.Some?
      then WithTemplate(s, TemplateOf(s).value.(profileArn := None)) else s
    case SecurityGroup =>
      if NetworkOf(s).Some? && Elements(NetworkOf(s).value.securityGroupRefs) != []
      then WithNetwork(s, NetworkOf(s).value.(securityGroups := None)) else s
    case Subnet =>
      if NetworkOf(s).Some? && Elements(NetworkOf(s).value.subnetRefs) != []
      then WithNetwork(s, NetworkOf(s).value.(subnets := None)) else s
  }

  lemma ClearFieldByField(s: Spec)
    ensures Clear(s)
         == ClearAt(Subnet, ClearAt(SecurityGroup, ClearAt(InstanceProfile, ClearAt(Role,
              ClearAt(Cluster, ClearAt(AutoScalingGroup, s))))))
  {
  }

  function Pick<T>(desired: Option<T>, latest: Option<T>): Option<T> {
    if latest.None? then desired else latest
  }

  function PickList<T>(desired: Slice<T>, latest: Slice<T>): Slice<T> {
    if Elements(desired) != [] && Elements(latest) == [] then desired else latest
  }

  function OrElse<T>(o: Option<T>, default: T): T {
    if o.Some? then o.value else default
  }

  predicate NetworkDeclares(d: Option<NetworkConfiguration>) {
    d.Some? && (Elements(d.value.securityGroupRefs) != [] || Elements(d.value.subnetRefs) != [])
  }

  predicate TemplateDeclares(d: Option<InstanceLaunchTemplate>) {
    d.Some? && (d.value.profileRef.Some? || NetworkDeclares(d.value.network))
  }

  predicate MipDeclares(d: Option<ManagedInstancesProvider>) {
    d.Some? && (d.value.roleRef.Some? || TemplateDeclares(d.value.template))
  }

  predicate AsgpDeclares(d: Option<AutoScalingGroupProvider>) {
    d.Some? && d.value.ref.Some?
  }

  function EnsureAsgp(d: Option<AutoScalingGroupProvider>, l: Option<AutoScalingGroupProvider>)
    : Option<AutoScalingGroupProvider>
  {
    if !AsgpDeclares(d) then l
    else
      var base := OrElse(l, EMPTY_ASGP);
      Some(base.(ref := Pick(d.value.ref, base.ref)))
  }

  function EnsureNetwork(d: Option<NetworkConfiguration>, l: Option<NetworkConfiguration>)
    : Option<NetworkConfiguration>
  {
    if !NetworkDeclares(d) then l
    else
      var base := OrElse(l, EMPTY_NETWORK);
      Some(base.(securityGroupRefs := PickList(d.value.securityGroupRefs, base.securityGroupRefs),
                 subnetRefs := PickList(d.value.subnetRefs, base.subnetRefs)))
  }

  function EnsureTemplate(d: Option<InstanceLaunchTemplate>, l: Option<InstanceLaunchTemplate>)
    : Option<InstanceLaunchTemplate>
  {
    if !TemplateDeclares(d) then l
    else
      var base := OrElse(l, EMPTY_TEMPLATE);
      Some(base.(profileRef := Pick(d.value.profileRef, base.profileRef),
                 network := EnsureNetwork(d.value.network, base.network)))
  }

  function EnsureMip(d: Option<ManagedInstancesProvider>, l: Option<ManagedInstancesProvider>)
    : Option<ManagedInstancesProvider>
  {
    if !MipDeclares(d) then l
    else
      var base := OrElse(l, EMPTY_MIP);
      Some(base.(roleRef := Pick(d.value.roleRef, base.roleRef),
                 template := EnsureTemplate(d.value.template, base.template)))
  }

  /** EnsureReferences. */
  function Ensure(d: Spec, l: Spec): Spec {
    l.(asgp := EnsureAsgp(d.asgp, l.asgp), mip := EnsureMip(d.mip, l.mip))
  }

  function TemplateOf(s: Spec): Option<InstanceLaunchTemplate> {
    if s.mip.None? then None else s.mip.value.template
  }

  function NetworkOf(s: Spec): Option<NetworkConfiguration> {
    var t := TemplateOf(s);
    if t.None? then None else t.value.network
  }

  // What restoring does to one field, with the containers it has to create.

  function OpenMip(l: Spec): Spec {
    if l.mip.None? then l.(mip := Some(EMPTY_MIP)) else l
  }

  function OpenTemplate(l: Spec): Spec {
    var o := OpenMip(l);
    if o.mip.value.template.None? then WithTemplate(o, EMPTY_TEMPLATE) else o
  }

  function OpenNetwork(l: Spec): Spec {
    var o := OpenTemplate(l);
    if TemplateOf(o).value.network.None? then WithNetwork(o, EMPTY_NETWORK) else o
  }

  function GiveAsgp(ref: Option<RefWrapper>, l: Spec): Spec {
    if ref.None? then l
    else
      var a := OrElse(l.asgp, EMPTY_ASGP);
      l.(asgp := Some(a.(ref := Pick(ref, a.ref))))
  }

  function GiveRole(ref: Option<RefWrapper>, l: Spec): Spec {
    if ref.None? then l
    else
      var o := OpenMip(l);
      o.(mip := Some(o.mip.value.(roleRef := Pick(ref, o.mip.value.roleRef))))
  }

  function GiveProfile(ref: Option<RefWrapper>, l: Spec): Spec {
    if ref.None? then l
    else
      var o := OpenTemplate(l);
      var t := TemplateOf(o).value;
      WithTemplate(o, t.(profileRef := Pick(ref, t.profileRef)))
  }

  function GiveSecurityGroups(refs: Slice<Option<RefWrapper>>, l: Spec): Spec {
    if Elements(refs) == [] then l
    else
      var o := OpenNetwork(l);
      var n := NetworkOf(o).value;
      WithNetwork(o, n.(securityGroupRefs := PickList(refs, n.securityGroupRefs)))
  }

  function GiveSubnets(refs: Slice<Option<RefWrapper>>, l: Spec): Spec {
    if Elements(refs) == [] then l
    else
      var o := OpenNetwork(l);
      var n := NetworkOf(o).value;
      WithNetwork(o, n.(subnetRefs := PickList(refs, n.subnetRefs)))
  }

  function GiveNetwork(d: Option<NetworkConfiguration>, l: Spec): Spec {
    if d.None? then l else GiveSubnets(d.value.subnetRefs, GiveSecurityGroups(d.value.securityGroupRefs, l))
  }

  function GiveTemplate(d: Option<InstanceLaunchTemplate>, l: Spec): Spec {
    if d.None? then l else GiveNetwork(d.value.network, GiveProfile(d.value.profileRef, l))
  }

  lemma GiveNetworkIsEnsure(d: Option<NetworkConfiguration>, l: Spec)
    ensures GiveNetwork(d, l)
         == if !NetworkDeclares(d) then l
            else
              var o := OpenTemplate(l);
              WithTemplate(o, TemplateOf(o).value.(network := EnsureNetwork(d, TemplateOf(o).value.network)))
  {
  }

  lemma GiveTemplateIsEnsure(d: Option<InstanceLaunchTemplate>, l: Spec)
    ensures GiveTemplate(d, l)
         == if !TemplateDeclares(d) then l
            else
              var o := OpenMip(l);
              o.(mip := Some(o.mip.value.(template := EnsureTemplate(d, o.mip.value.template))))
  {
    if d.Some? {
      GiveNetworkIsEnsure(d.value.network, GiveProfile(d.value.profileRef, l));
      hide GiveNetwork, EnsureNetwork, NetworkDeclares;
    }
  }

  lemma EnsureFieldByField(d: Spec, l: Spec)
    ensures var e := if d.asgp.Some? then GiveAsgp(d.asgp.value.ref, l) else l;
            Ensure(d, l)
            == if d.mip.None? then e else GiveTemplate(d.mip.value.template, GiveRole(d.mip.value.roleRef, e))
  {
    if d.mip.Some? {
      var e := if d.asgp.Some? then GiveAsgp(d.asgp.value.ref, l) else l;
      GiveTemplateIsEnsure(d.mip.value.template, GiveRole(d.mip.value.roleRef, e));
      hide GiveTemplate, EnsureTemplate, TemplateDeclares;
    }
  }

  /** validateReferenceFields: the first field that has both a reference and a value. */
  function Validate(s: Spec): Option<RefError> {
    if s.asgp.Some? && s.asgp.value.ref.Some? && s.asgp.value.arn.Some? then
      Some(ReferenceAndId(AutoScalingGroup))
    else if s.clusterRef.Some? && s.cluster.Some? then
      Some(ReferenceAndId(Cluster))
    else if s.mip.Some? && s.mip.value.roleRef.Some? && s.mip.value.roleArn.Some? then
      Some(ReferenceAndId(Role))
    else
      var t := TemplateOf(s);
      if t.Some? && t.value.profileRef.Some? && t.value.profileArn.Some? then
        Some(ReferenceAndId(InstanceProfile))
      else
        var n := NetworkOf(s);
        if n.Some? && Elements(n.value.securityGroupRefs) != [] && Elements(n.value.securityGroups) != [] then
          Some(ReferenceAndId(SecurityGroup))
        else if n.Some? && Elements(n.value.subnetRefs) != [] && Elements(n.value.subnets) != [] then
          Some(ReferenceAndId(Subnet))
        else None
  }

  /** The state after a resolver ran, whether it saw a reference, and its error. */
  datatype Resolving<+T> = Resolving(value: T, has: bool, error: Option<RefError>)

  function ResolveField(w: World, home: string, kind: Kind, ref: Option<RefWrapper>, current: Option<string>)
    : Resolving<Option<string>>
  {
    if !HasFrom(ref) then Resolving(current, false, None)
    else
      match ResolveOne(w, home, kind, ref.value.from.value)
      case Resolved(id) => Resolving(Some(id), true, None)
      case Unresolved(e) => Resolving(current, true, Some(e))
  }

  function ResolveList(w: World, home: string, kind: Kind, refs: seq<Option<RefWrapper>>, current: StringPList)
    : Resolving<StringPList>
  {
    if refs == [] then Resolving(current, false, None)
    else if !HasFrom(refs[0]) then ResolveList(w, home, kind, refs[1..], current)
    else
      match ResolveOne(w, home, kind, refs[0].value.from.value)
      case Unresolved(e) => Resolving(current, true, Some(e))
      case Resolved(id) =>
        var rest := ResolveList(w, home, kind, refs[1..], Some(Elements(current) + [Some(id)]));
        Resolving(rest.value, true, rest.error)
  }

  function WithTemplate(s: Spec, t: InstanceLaunchTemplate): Spec
    requires s.mip.Some?
  {
    s.(mip := Some(s.mip.value.(template := Some(t))))
  }

  function WithNetwork(s: Spec, n: NetworkConfiguration): Spec
    requires TemplateOf(s).Some?
  {
    WithTemplate(s, TemplateOf(s).value.(network := Some(n)))
  }

  function StepAsgp(w: World, home: string, s: Spec): Resolving<Spec> {
    if s.asgp.None? then Resolving(s, false, None)
    else
      var a := s.asgp.value;
      var r := ResolveField(w, home, AutoScalingGroup, a.ref, a.arn);
      Resolving(s.(asgp := Some(a.(arn := r.value))), r.has, r.error)
  }

  function StepCluster(w: World, home: string, s: Spec): Resolving<Spec> {
    var r := ResolveField(w, home, Cluster, s.clusterRef, s.cluster);
    Resolving(s.(cluster := r.value), r.has, r.error)
  }

  function StepRole(w: World, home: string, s: Spec): Resolving<Spec> {
    if s.mip.None? then Resolving(s, false, None)
    else
      var m := s.mip.value;
      var r := ResolveField(w, home, Role, m.roleRef, m.roleArn);
      Resolving(s.(mip := Some(m.(roleArn := r.value))), r.has, r.error)
  }

  function StepProfile(w: World, home: string, s: Spec): Resolving<Spec> {
    if TemplateOf(s).None? then Resolving(s, false, None)
    else
      var t := TemplateOf(s).value;
      var r := ResolveField(w, home, InstanceProfile, t.profileRef, t.profileArn);
      Resolving(WithTemplate(s, t.(profileArn := r.value)), r.has, r.error)
  }

  function StepSecurityGroups(w: World, home: string, s: Spec): Resolving<Spec> {
    if NetworkOf(s).None? then Resolving(s, false, None)
    else
      var n := NetworkOf(s).value;
      var r := ResolveList(w, home, SecurityGroup, Elements(n.securityGroupRefs), n.securityGroups);
      Resolving(WithNetwork(s, n.(securityGroups := r.value)), r.has, r.error)
  }

  function StepSubnets(w: World, home: string, s: Spec): Resolving<Spec> {
    if NetworkOf(s).None? then Resolving(s, false, None)
    else
      var n := NetworkOf(s).value;
      var r := ResolveList(w, home, Subnet, Elements(n.subnetRefs), n.subnets);
      Resolving(WithNetwork(s, n.(subnets := r.value)), r.has, r.error)
  }

  function Step(w: World, home: string, kind: Kind, s: Spec): Resolving<Spec> {
    match kind
    case AutoScalingGroup => StepAsgp(w, home, s)
    case Cluster => StepCluster(w, home, s)
    case Role => StepRole(w, home, s)
    case InstanceProfile => StepProfile(w, home, s)
    case SecurityGroup => StepSecurityGroups(w, home, s)
    case Subnet => StepSubnets(w, home, s)
  }

  /** The resolvers of the given fields in turn, up to the first that fails. */
  function ResolveFields(w: World, home: string, kinds: seq<Kind>, s: Spec): Resolving<Spec> {
    if kinds == [] then Resolving(s, false, None)
    else
      var r := Step(w, home, kinds[0], s);
      if r.error.Some? then r
      else
        var n := ResolveFields(w, home, kinds[1..], r.value);
        Resolving(n.value, r.has || n.has, n.error)
  }

  const FIELDS := [AutoScalingGroup, Cluster, Role, InstanceProfile, SecurityGroup, Subnet]

  /** ResolveReferences: a validation error is reported only when no resolver fails. */
  function Resolve(w: World, home: string, s: Spec): Resolving<Spec> {
    var r := ResolveFields(w, home, FIELDS, s);
    if r.error.Some? then r else r.(error := Validate(s))
  }

  // ---- clearing undoes resolving ----

  lemma ClearAfterStep(w: World, home: string, kind: Kind, s: Spec)
    ensures Clear(Step(w, home, kind, s).value) == Clear(s)
  {
  }

  lemma {:induction false} ClearAfterFields(w: World, home: string, kinds: seq<Kind>, s: Spec)
    ensures Clear(ResolveFields(w, home, kinds, s).value) == Clear(s)
  {
    if kinds != [] {
      ClearAfterStep(w, home, kinds[0], s);
      ClearAfterFields(w, home, kinds[1..], Step(w, home, kinds[0], s).value);
    }
  }

  /** For every API state and every outcome, including a stop in the middle of a list. */
  lemma ClearUndoesResolve(w: World, home: string, s: Spec)
    ensures Clear(Resolve(w, home, s).value) == Clear(s)
  {
    ClearAfterFields(w, home, FIELDS, s);
  }

  /** Nil and empty lists of resolved ids are the same. */
  function Settled(s: Spec): Spec {
    if NetworkOf(s).None? then s
    else
      var n := NetworkOf(s).value;
      WithNetwork(s, n.(securityGroups := NilIfEmpty(n.securityGroups), subnets := NilIfEmpty(n.subnets)))
  }

  /** Validation accepts exactly the specs from which clearing takes nothing away. */
  lemma ValidIffNothingToClear(s: Spec)
    ensures Validate(s).None? <==> Settled(Clear(s)) == Settled(s)
  {
  }

  lemma ClearIsIdempotent(s: Spec)
    ensures Clear(Clear(s)) == Clear(s)
    ensures Validate(Clear(s)).None?
  {
  }

  // ---- the references of a spec, field by field ----

  function AsList<T>(o: Option<T>): seq<Option<T>> {
    if o.Some? then [o] else []
  }

  function RefsAt(kind: Kind, s: Spec): seq<Option<RefWrapper>> {
    match kind
    case AutoScalingGroup => if s.asgp.Some? then AsList(s.asgp.value.ref) else []
    case Cluster => AsList(s.clusterRef)
    case Role => if s.mip.Some? then AsList(s.mip.value.roleRef) else []
    case InstanceProfile => if TemplateOf(s).Some? then AsList(TemplateOf(s).value.profileRef) else []
    case SecurityGroup => if NetworkOf(s).Some? then Elements(NetworkOf(s).value.securityGroupRefs) else []
    case Subnet => if NetworkOf(s).Some? then Elements(NetworkOf(s).value.subnetRefs) else []
  }

  function ValuesAt(kind: Kind, s: Spec): seq<Option<string>> {
    match kind
    case AutoScalingGroup => if s.asgp.Some? then AsList(s.asgp.value.arn) else []
    case Cluster => AsList(s.cluster)
    case Role => if s.mip.Some? then AsList(s.mip.value.roleArn) else []
    case InstanceProfile => if TemplateOf(s).Some? then AsList(TemplateOf(s).value.profileArn) else []
    case SecurityGroup => if NetworkOf(s).Some? then Elements(NetworkOf(s).value.securityGroups) else []
    case Subnet => if NetworkOf(s).Some? then Elements(NetworkOf(s).value.subnets) else []
  }

  lemma ValidMeans(s: Spec)
    ensures Validate(s).None? <==> forall k: Kind :: RefsAt(k, s) == [] || ValuesAt(k, s) == []
  {
    assert Validate(s) == Some(ReferenceAndId(AutoScalingGroup)) ==> RefsAt(AutoScalingGroup, s) != [];
    if Validate(s).Some? {
      var k := Validate(s).value.field;
      assert RefsAt(k, s) != [] && ValuesAt(k, s) != [];
    }
  }

  predicate Conflicts(kind: Kind, s: Spec) {
    RefsAt(kind, s) != [] && ValuesAt(kind, s) != []
  }

  /** The error names the first field that conflicts. */
  lemma ValidateNamesFirst(s: Spec, i: nat)
    requires i < |FIELDS|
    ensures Validate(s) == Some(ReferenceAndId(FIELDS[i]))
       <==> Conflicts(FIELDS[i], s) && forall j :: 0 <= j < i ==> !Conflicts(FIELDS[j], s)
  {
    assert FIELDS[0] == AutoScalingGroup && FIELDS[1] == Cluster && FIELDS[2] == Role;
    assert FIELDS[3] == InstanceProfile && FIELDS[4] == SecurityGroup && FIELDS[5] == Subnet;
    assert i in {0, 1, 2, 3, 4, 5};
  }

  /** The references to follow, in the order in which the resolvers follow them. */
  function Followed(kind: Kind, refs: seq<Option<RefWrapper>>): seq<(Kind, Reference)> {
    if refs == [] then []
    else (if HasFrom(refs[0]) then [(kind, refs[0].value.from.value)] else []) + Followed(kind, refs[1..])
  }

  function AllFollowed(kinds: seq<Kind>, s: Spec): seq<(Kind, Reference)> {
    if kinds == [] then [] else Followed(kinds[0], RefsAt(kinds[0], s)) + AllFollowed(kinds[1..], s)
  }

  function FirstFailure(w: World, home: string, rs: seq<(Kind, Reference)>): Option<RefError> {
    if rs == [] then None
    else
      match ResolveOne(w, home, rs[0].0, rs[0].1)
      case Unresolved(e) => Some(e)
      case Resolved(_) => FirstFailure(w, home, rs[1..])
  }

  function Ids(w: World, home: string, rs: seq<(Kind, Reference)>): seq<Option<string>> {
    if rs == [] then []
    else
      (match ResolveOne(w, home, rs[0].0, rs[0].1)
       case Unresolved(_) => []
       case Resolved(id) => [Some(id)]) + Ids(w, home, rs[1..])
  }

  lemma {:induction false} FirstFailureOfConcat(w: World, home: string, a: seq<(Kind, Reference)>,
                                                b: seq<(Kind, Reference)>)
    ensures FirstFailure(w, home, a + b)
         == if FirstFailure(w, home, a).Some? then FirstFailure(w, home, a) else FirstFailure(w, home, b)
  {
    if a == [] {
      assert a + b == b;
    } else {
      assert (a + b)[1..] == a[1..] + b;
      FirstFailureOfConcat(w, home, a[1..], b);
    }
  }

  lemma {:induction false} ResolveListMeans(w: World, home: string, kind: Kind, refs: seq<Option<RefWrapper>>,
                                            current: StringPList)
    ensures var r := ResolveList(w, home, kind, refs, current);
            var rs := Followed(kind, refs);
            && (r.has <==> rs != [])
            && r.error == FirstFailure(w, home, rs)
            && (rs == [] ==> r.value == current)
            && (r.error.None? && rs != [] ==> r.value == Some(Elements(current) + Ids(w, home, rs)))
  {
    if refs != [] {
      var rs := Followed(kind, refs);
      if !HasFrom(refs[0]) {
        assert rs == Followed(kind, refs[1..]);
        ResolveListMeans(w, home, kind, refs[1..], current);
      } else {
        assert rs[0] == (kind, refs[0].value.from.value);
        assert rs[1..] == Followed(kind, refs[1..]);
        match ResolveOne(w, home, kind, refs[0].value.from.value) {
          case Unresolved(_) =>
          case Resolved(id) =>
            var next: StringPList := Some(Elements(current) + [Some(id)]);
            ResolveListMeans(w, home, kind, refs[1..], next);
            assert Ids(w, home, rs) == [Some(id)] + Ids(w, home, rs[1..]);
            var rest := ResolveList(w, home, kind, refs[1..], next);
            if rest.error.None? {
              assert Elements(next) + [] == Elements(next);
              assert rest.value == Some(Elements(next) + Ids(w, home, rs[1..]));
              assert Elements(current) + Ids(w, home, rs) == Elements(next) + Ids(w, home, rs[1..]);
            }
        }
      }
    }
  }

  predicate IsListField(kind: Kind) {
    kind == SecurityGroup || kind == Subnet
  }

  /** The values a field holds once all its references are resolved. */
  function Landed(w: World, home: string, kind: Kind, s: Spec): seq<Option<string>> {
    var rs := Followed(kind, RefsAt(kind, s));
    if rs == [] then ValuesAt(kind, s)
    else (if IsListField(kind) then ValuesAt(kind, s) else []) + Ids(w, home, rs)
  }

  /** The spec without the six values that references resolve into. */
  function EraseValues(s: Spec): Spec {
    var s' := s.(asgp := if s.asgp.Some? then Some(s.asgp.value.(arn := None)) else None,
                 cluster := None,
                 mip := if s.mip.Some? then Some(s.mip.value.(roleArn := None)) else None);
    if TemplateOf(s).None? then s'
    else
      var t := TemplateOf(s).value;
      WithTemplate(s', t.(profileArn := None,
                          network := if t.network.Some?
                                     then Some(t.network.value.(securityGroups := None, subnets := None))
                                     else None))
  }

  /** Two specs with the same values and the same rest differ in nothing but nil or empty lists. */
  lemma ValuesAndRestDetermineSpec(s: Spec, t: Spec)
    requires EraseValues(s) == EraseValues(t)
    requires forall k: Kind :: ValuesAt(k, s) == ValuesAt(k, t)
    ensures Settled(s) == Settled(t)
  {
    assert s.tags == EraseValues(s).tags && t.tags == EraseValues(t).tags;
    assert s.asgp.Some? <==> t.asgp.Some?;
    if s.asgp.Some? {
      assert ValuesAt(AutoScalingGroup, s) == ValuesAt(AutoScalingGroup, t);
      assert s.asgp.value.(arn := None) == t.asgp.value.(arn := None);
      assert s.asgp.value.arn == t.asgp.value.arn;
    }
    assert ValuesAt(Cluster, s) == ValuesAt(Cluster, t);
    if s.mip.Some? {
      assert ValuesAt(Role, s) == ValuesAt(Role, t);
      assert ValuesAt(InstanceProfile, s) == ValuesAt(InstanceProfile, t);
      assert ValuesAt(SecurityGroup, s) == ValuesAt(SecurityGroup, t);
      assert ValuesAt(Subnet, s) == ValuesAt(Subnet, t);
    }
  }

  lemma ResolveFieldMeans(w: World, home: string, kind: Kind, ref: Option<RefWrapper>, current: Option<string>)
    ensures var r := ResolveField(w, home, kind, ref, current);
            var rs := Followed(kind, AsList(ref));
            && (r.has <==> rs != [])
            && r.error == FirstFailure(w, home, rs)
            && (rs == [] ==> r.value == current)
            && (r.error.None? && rs != [] ==> AsList(r.value) == Ids(w, home, rs))
  {
  }

  /** What a resolver leaves alone. */
  lemma StepFrame(w: World, home: string, kind: Kind, s: Spec)
    ensures var t := Step(w, home, kind, s).value;
            && EraseValues(t) == EraseValues(s)
            && (forall j :: RefsAt(j, t) == RefsAt(j, s))
            && (forall j :: j != kind ==> ValuesAt(j, t) == ValuesAt(j, s))
  {
  }

  lemma StepMeans(w: World, home: string, kind: Kind, s: Spec)
    ensures var r := Step(w, home, kind, s);
            var rs := Followed(kind, RefsAt(kind, s));
            && (r.has <==> rs != [])
            && r.error == FirstFailure(w, home, rs)
            && (r.error.None? ==> ValuesAt(kind, r.value) == Landed(w, home, kind, s))
  {
    match kind
    case AutoScalingGroup =>
      if s.asgp.Some? { ResolveFieldMeans(w, home, kind, s.asgp.value.ref, s.asgp.value.arn); }
    case Cluster =>
      ResolveFieldMeans(w, home, kind, s.clusterRef, s.cluster);
    case Role =>
      if s.mip.Some? { ResolveFieldMeans(w, home, kind, s.mip.value.roleRef, s.mip.value.roleArn); }
    case InstanceProfile =>
      if TemplateOf(s).Some? {
        ResolveFieldMeans(w, home, kind, TemplateOf(s).value.profileRef, TemplateOf(s).value.profileArn);
      }
    case SecurityGroup =>
      if NetworkOf(s).Some? {
        var n := NetworkOf(s).value;
        ResolveListMeans(w, home, kind, Elements(n.securityGroupRefs), n.securityGroups);
      }
    case Subnet =>
      if NetworkOf(s).Some? {
        var n := NetworkOf(s).value;
        ResolveListMeans(w, home, kind, Elements(n.subnetRefs), n.subnets);
      }
  }

  lemma {:induction false} FollowedByRefs(kinds: seq<Kind>, s: Spec, t: Spec)
    requires forall k: Kind :: RefsAt(k, s) == RefsAt(k, t)
    ensures AllFollowed(kinds, s) == AllFollowed(kinds, t)
  {
    if kinds != [] {
      FollowedByRefs(kinds[1..], s, t);
    }
  }

  /** The meaning of a run of resolvers against the flat list of references. */
  lemma {:induction false} FieldsMean(w: World, home: string, kinds: seq<Kind>, s: Spec)
    requires Distinct(kinds)
    ensures var r := ResolveFields(w, home, kinds, s);
            && (r.has <==> AllFollowed(kinds, s) != [])
            && r.error == FirstFailure(w, home, AllFollowed(kinds, s))
            && EraseValues(r.value) == EraseValues(s)
            && (forall k: Kind :: RefsAt(k, r.value) == RefsAt(k, s))
            && (r.error.None? ==>
                  (forall k: Kind :: k in kinds ==> ValuesAt(k, r.value) == Landed(w, home, k, s)))
            && (r.error.None? ==>
                  (forall k: Kind :: k !in kinds ==> ValuesAt(k, r.value) == ValuesAt(k, s)))
  {
    if kinds != [] {
      var k0 := kinds[0];
      var r0 := Step(w, home, k0, s);
      StepMeans(w, home, k0, s);
      StepFrame(w, home, k0, s);
      FirstFailureOfConcat(w, home, Followed(k0, RefsAt(k0, s)), AllFollowed(kinds[1..], s));
      FollowedByRefs(kinds[1..], s, r0.value);
      if r0.error.None? {
        FieldsMean(w, home, kinds[1..], r0.value);
        var r := ResolveFields(w, home, kinds, s);
        if r.error.None? {
          forall k: Kind
            ensures ValuesAt(k, r.value) == if k in kinds then Landed(w, home, k, s) else ValuesAt(k, s)
          {
            assert k in kinds <==> k == k0 || k in kinds[1..];
            assert k0 !in kinds[1..];
          }
        }
      }
    }
  }

  lemma AllFieldsAreFields(k: Kind)
    ensures k in FIELDS
    ensures Distinct(FIELDS)
  {
  }

  /** The boolean says whether anything is referenced, whatever the outcome; the
      error is that of the first reference that does not resolve, else that of the
      validation; when every reference resolves, every field holds what its references
      resolve to, also if the validation then fails. */
  lemma ResolveMeans(w: World, home: string, s: Spec)
    ensures var r := Resolve(w, home, s);
            var rs := AllFollowed(FIELDS, s);
            && (r.has <==> rs != [])
            && r.error == (if FirstFailure(w, home, rs).Some? then FirstFailure(w, home, rs) else Validate(s))
            && EraseValues(r.value) == EraseValues(s)
            && (forall k: Kind :: RefsAt(k, r.value) == RefsAt(k, s))
            && (FirstFailure(w, home, rs).None? ==> forall k: Kind :: ValuesAt(k, r.value) == Landed(w, home, k, s))
  {
    AllFieldsAreFields(Role);
    FieldsMean(w, home, FIELDS, s);
    forall k: Kind
      ensures k in FIELDS
    {
      AllFieldsAreFields(k);
    }
  }
}
