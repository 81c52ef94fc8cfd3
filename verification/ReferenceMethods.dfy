/** The reference operations of pkg/resource/capacity_provider/references.go as they work on
    the object graph: ClearResolvedReferences and EnsureReferences on deep copies,
    ResolveReferences on the caller's own object. Each is proved to do to the graph what
    References.dfy says of its value. */
module ReferenceMethods {
  import opened ApiTypes
  import opened Objects
  import opened References

  lemma GraphMembers(s: SpecNode)
    ensures s in s.Graph()
    ensures s.asgp != null ==> s.asgp in s.Graph()
    ensures s.mip != null ==> s.mip in s.Graph()
    ensures s.mip != null && s.mip.template != null ==> s.mip.template in s.Graph()
    ensures s.mip != null && s.mip.template != null && s.mip.template.network != null ==>
              s.mip.template.network in s.Graph()
  {
  }

  // ---- clearing ----

  method ClearAsgpArn(s: SpecNode)
    modifies s.asgp
    ensures s.Value() == ClearAt(AutoScalingGroup, old(s.Value())) && s.Graph() <= old(s.Graph())
  {
    hide MipNode.Value, MipNode.Graph, SpecNode.Leaves, RefGraph, ScalingOf, ScalingGraph;
    if s.asgp != null {
      if s.asgp.ref != null {
        s.asgp.arn := null;
      }
    }
  }

  method ClearClusterName(s: SpecNode)
    modifies s`cluster
    ensures s.Value() == ClearAt(Cluster, old(s.Value())) && s.Graph() <= old(s.Graph())
  {
    hide AsgpNode.Value, AsgpNode.Graph, MipNode.Value, MipNode.Graph, RefGraph, TagListOf, TagsGraph;
    if s.clusterRef != null {
      s.cluster := null;
    }
  }

  method ClearRoleArn(s: SpecNode)
    modifies s.mip
    ensures s.Value() == ClearAt(Role, old(s.Value())) && s.Graph() <= old(s.Graph())
    ensures s.mip != null ==> s.mip.template == old(s.mip.template)
  {
    hide AsgpNode.Value, AsgpNode.Graph, TemplateNode.Value, TemplateNode.Graph, SpecNode.Leaves;
    hide RefGraph, AutoRepairGraph, OptimizationGraph;
    if s.mip != null {
      if s.mip.roleRef != null {
        s.mip.roleArn := null;
      }
    }
  }

  method ClearProfileArn(s: SpecNode)
    modifies if s.mip == null then null else s.mip.template
    ensures s.Value() == ClearAt(InstanceProfile, old(s.Value())) && s.Graph() <= old(s.Graph())
    ensures s.mip != null && s.mip.template != null ==> s.mip.template.network == old(s.mip.template.network)
  {
    hide AsgpNode.Value, AsgpNode.Graph, NetworkNode.Value, NetworkNode.Graph, SpecNode.Leaves, MipNode.Leaves;
    hide RefGraph, RequirementsOf, RequirementsGraph, ReservationsGraph, LocalStorageGraph, StorageGraph;
    if s.mip != null {
      if s.mip.template != null {
        if s.mip.template.profileRef != null {
          s.mip.template.profileArn := null;
        }
      }
    }
  }

  method ClearSecurityGroups(s: SpecNode)
    modifies if s.mip == null || s.mip.template == null then null else s.mip.template.network
    ensures s.Value() == ClearAt(SecurityGroup, old(s.Value())) && s.Graph() <= old(s.Graph())
  {
    hide AsgpNode.Value, AsgpNode.Graph, SpecNode.Leaves, MipNode.Leaves, TemplateNode.Leaves, RefsGraph;
    if s.mip != null {
      if s.mip.template != null {
        if s.mip.template.network != null {
          if |Elements(s.mip.template.network.securityGroupRefs)| > 0 {
            s.mip.template.network.securityGroups := None;
          }
        }
      }
    }
  }

  method ClearSubnets(s: SpecNode)
    modifies if s.mip == null || s.mip.template == null then null else s.mip.template.network
    ensures s.Value() == ClearAt(Subnet, old(s.Value())) && s.Graph() <= old(s.Graph())
  {
    hide AsgpNode.Value, AsgpNode.Graph, SpecNode.Leaves, MipNode.Leaves, TemplateNode.Leaves, RefsGraph;
    if s.mip != null {
      if s.mip.template != null {
        if s.mip.template.network != null {
          if |Elements(s.mip.template.network.subnetRefs)| > 0 {
            s.mip.template.network.subnets := None;
          }
        }
      }
    }
  }

  method ClearInPlace(s: SpecNode)
    modifies s, s.asgp, s.mip, if s.mip == null then null else s.mip.template
    modifies if s.mip == null || s.mip.template == null then null else s.mip.template.network
    ensures s.Value() == Clear(old(s.Value())) && s.Graph() <= old(s.Graph())
  {
    hide SpecNode.Value, SpecNode.Graph, ClearAt, Clear;
    ghost var v := s.Value();
    ClearAsgpArn(s);
    ClearClusterName(s);
    ClearRoleArn(s);
    ClearProfileArn(s);
    ClearSecurityGroups(s);
    ClearSubnets(s);
    ClearFieldByField(v);
  }

  /** The copy is new in every object, so neither the original nor anything it shares changes. */
  method ClearResolvedReferences(res: CapacityProviderNode) returns (out: CapacityProviderNode)
    ensures fresh(out.Graph())
    ensures out.Value() == old(res.Value()).(spec := Clear(old(res.Value()).spec))
  {
    hide SpecNode.Value, SpecNode.Graph, Clear, StatusNode.Value, StatusNode.Graph;
    var ko := res.DeepCopy();
    GraphMembers(ko.spec);
    label Copied:
    ClearInPlace(ko.spec);
    SameStatus@Copied(ko.status);
    return ko;
  }

  // ---- resolving ----

  /** The six getReferencedResourceState functions, after the read: two passes over the conditions. */
  method CheckState(kind: Kind, namespace: string, name: string, o: RefObject) returns (e: Option<RefError>)
    ensures e == StateError(kind, namespace, name, o)
  {
    for i := 0 to |o.conditions|
      invariant forall j :: 0 <= j < i ==> !(o.conditions[j].kind == Terminal && o.conditions[j].status == True)
    {
      if o.conditions[i].kind == Terminal && o.conditions[i].status == True {
        return Some(ReferenceTerminal(kind, namespace, name));
      }
    }
    var synced := false;
    for i := 0 to |o.conditions|
      invariant synced <==>
                exists j :: 0 <= j < i && o.conditions[j].kind == ResourceSynced && o.conditions[j].status == True
    {
      if o.conditions[i].kind == ResourceSynced && o.conditions[i].status == True {
        synced := true;
      }
    }
    if !synced {
      return Some(ReferenceNotSynced(kind, namespace, name));
    }
    if Target(kind, o) == None {
      return Some(ReferenceMissingTarget(kind, namespace, name));
    }
    return None;
  }

  /** What every resolver does with one reference that has a From. */
  method Follow(w: World, home: string, kind: Kind, arr: Cell<ReferenceStruct>) returns (one: Resolution)
    ensures one == ResolveOne(w, home, kind, FromOf(arr).value)
  {
    if arr.value.name == null || arr.value.name.value == "" {
      return Unresolved(NameMissing(kind));
    }
    var name := arr.value.name.value;
    var namespace := w.crossNamespace(home, ValueOf(arr.value.namespace), name);
    if namespace.Failed? {
      return Unresolved(CrossNamespace(namespace.reason));
    }
    var o := w.get(kind, namespace.value, name);
    if o.Failed? {
      return Unresolved(ReadFailed(o.reason));
    }
    var e := CheckState(kind, namespace.value, name, o.value);
    if e.Some? {
      return Unresolved(e.value);
    }
    return Resolved(Target(kind, o.value).value);
  }

  /** The graph of the spec has only new objects added. */
  twostate predicate OnlyNew(s: SpecNode)
    reads s, s.asgp, s.mip, if s.mip == null then null else s.mip.template
    reads if s.mip == null || s.mip.template == null then null else s.mip.template.network
  {
    forall o :: o in s.Graph() ==> o in old(s.Graph()) || fresh(o)
  }

  method ResolveArn(w: World, home: string, a: AsgpNode) returns (has: bool, error: Option<RefError>)
    modifies a
    ensures var v := old(a.Value());
            var r := ResolveField(w, home, AutoScalingGroup, v.ref, v.arn);
            a.Value() == v.(arn := r.value) && has == r.has && error == r.error
    ensures forall o :: o in a.Graph() ==> o in old(a.Graph()) || fresh(o)
  {
    hide ResolveOne, ScalingOf, ScalingGraph, RefGraph;
    has, error := false, None;
    if a.ref != null && a.ref.value.from != null {
      has := true;
      var one := Follow(w, home, AutoScalingGroup, a.ref.value.from);
      if one.Unresolved? {
        return has, Some(one.error);
      }
      a.arn := new Cell(one.id);
    }
  }

  method ResolveAsgp(w: World, home: string, s: SpecNode) returns (has: bool, error: Option<RefError>)
    modifies s.asgp
    ensures Resolving(s.Value(), has, error) == StepAsgp(w, home, old(s.Value())) && OnlyNew(s)
  {
    hide AsgpNode.Value, AsgpNode.Graph, MipNode.Value, MipNode.Graph, SpecNode.Leaves, ResolveField;
    has, error := false, None;
    if s.asgp != null {
      has, error := ResolveArn(w, home, s.asgp);
    }
  }

  method ResolveCluster(w: World, home: string, s: SpecNode) returns (has: bool, error: Option<RefError>)
    modifies s`cluster
    ensures Resolving(s.Value(), has, error) == StepCluster(w, home, old(s.Value())) && OnlyNew(s)
  {
    hide AsgpNode.Value, AsgpNode.Graph, MipNode.Value, MipNode.Graph, ResolveOne, RefGraph, TagListOf, TagsGraph;
    has, error := false, None;
    if s.clusterRef != null && s.clusterRef.value.from != null {
      has := true;
      var one := Follow(w, home, Cluster, s.clusterRef.value.from);
      if one.Unresolved? {
        return has, Some(one.error);
      }
      s.cluster := new Cell(one.id);
    }
  }

  method ResolveRoleArn(w: World, home: string, m: MipNode) returns (has: bool, error: Option<RefError>)
    modifies m
    ensures var v := old(m.Value());
            var r := ResolveField(w, home, Role, v.roleRef, v.roleArn);
            m.Value() == v.(roleArn := r.value) && has == r.has && error == r.error
    ensures forall o :: o in m.Graph() ==> o in old(m.Graph()) || fresh(o)
    ensures m.template == old(m.template)
  {
    hide TemplateNode.Value, TemplateNode.Graph, ResolveOne, RefGraph, AutoRepairGraph, OptimizationGraph;
    has, error := false, None;
    if m.roleRef != null && m.roleRef.value.from != null {
      has := true;
      var one := Follow(w, home, Role, m.roleRef.value.from);
      if one.Unresolved? {
        return has, Some(one.error);
      }
      m.roleArn := new Cell(one.id);
    }
  }

  method ResolveRole(w: World, home: string, s: SpecNode) returns (has: bool, error: Option<RefError>)
    modifies s.mip
    ensures Resolving(s.Value(), has, error) == StepRole(w, home, old(s.Value())) && OnlyNew(s)
    ensures s.mip != null ==> s.mip.template == old(s.mip.template)
  {
    hide AsgpNode.Value, AsgpNode.Graph, MipNode.Value, MipNode.Graph, SpecNode.Leaves, ResolveField;
    has, error := false, None;
    if s.mip != null {
      has, error := ResolveRoleArn(w, home, s.mip);
    }
  }

  method ResolveProfileArn(w: World, home: string, t: TemplateNode) returns (has: bool, error: Option<RefError>)
    modifies t
    ensures var v := old(t.Value());
            var r := ResolveField(w, home, InstanceProfile, v.profileRef, v.profileArn);
            t.Value() == v.(profileArn := r.value) && has == r.has && error == r.error
    ensures forall o :: o in t.Graph() ==> o in old(t.Graph()) || fresh(o)
    ensures t.network == old(t.network)
  {
    hide NetworkNode.Value, NetworkNode.Graph, ResolveOne, RefGraph, RequirementsOf, RequirementsGraph;
    hide ReservationsGraph, LocalStorageGraph, StorageGraph;
    has, error := false, None;
    if t.profileRef != null && t.profileRef.value.from != null {
      has := true;
      var one := Follow(w, home, InstanceProfile, t.profileRef.value.from);
      if one.Unresolved? {
        return has, Some(one.error);
      }
      t.profileArn := new Cell(one.id);
    }
  }

  method ResolveProfile(w: World, home: string, s: SpecNode) returns (has: bool, error: Option<RefError>)
    modifies if s.mip == null then null else s.mip.template
    ensures Resolving(s.Value(), has, error) == StepProfile(w, home, old(s.Value())) && OnlyNew(s)
    ensures s.mip != null && s.mip.template != null ==> s.mip.template.network == old(s.mip.template.network)
  {
    hide AsgpNode.Value, AsgpNode.Graph, TemplateNode.Value, TemplateNode.Graph;
    hide SpecNode.Leaves, MipNode.Leaves, ResolveField;
    has, error := false, None;
    if s.mip != null {
      if s.mip.template != null {
        has, error := ResolveProfileArn(w, home, s.mip.template);
      }
    }
  }

  lemma FromOfRef(c: Cell?<WrapperStruct>)
    ensures HasFrom(RefOf(c)) <==> c != null && c.value.from != null
    ensures HasFrom(RefOf(c)) ==> RefOf(c).value.from == FromOf(c.value.from)
  {
  }

  lemma ValuesOfSnoc(cs: Slice<Cell?<string>>, c: Cell<string>)
    ensures ValuesOf(Some(Elements(cs) + [c])) == Some(Elements(ValuesOf(cs)) + [Some(c.value)])
  {
    assert ValuesOf(Some(Elements(cs) + [c])).value == Elements(ValuesOf(cs)) + [Some(c.value)];
  }

  // The loops of the two list resolvers: ids are appended to the list as they are found.

  method AppendSecurityGroups(w: World, home: string, n: NetworkNode) returns (has: bool, error: Option<RefError>)
    modifies n
    ensures var v := old(n.Value());
            var r := ResolveList(w, home, SecurityGroup, Elements(v.securityGroupRefs), v.securityGroups);
            n.Value() == v.(securityGroups := r.value) && has == r.has && error == r.error
    ensures forall o :: o in n.Graph() ==> o in old(n.Graph()) || fresh(o)
  {
    hide ResolveOne, RefOf, RefsGraph;
    has, error := false, None;
    var nodes := Elements(n.securityGroupRefs);
    ghost var refs := Elements(RefsOf(n.securityGroupRefs));
    ghost var all := ResolveList(w, home, SecurityGroup, refs, ValuesOf(n.securityGroups));
    for i := 0 to |nodes|
      invariant n.securityGroupRefs == old(n.securityGroupRefs)
      invariant n.subnets == old(n.subnets) && n.subnetRefs == old(n.subnetRefs)
      invariant forall o :: o in NodesOf(n.securityGroups) ==> o in old(NodesOf(n.securityGroups)) || fresh(o)
      invariant var rest := ResolveList(w, home, SecurityGroup, refs[i..], ValuesOf(n.securityGroups));
                all == Resolving(rest.value, has || rest.has, rest.error)
    {
      assert refs[i..][1..] == refs[i + 1..];
      FromOfRef(nodes[i]);
      if nodes[i] != null && nodes[i].value.from != null {
        has := true;
        var one := Follow(w, home, SecurityGroup, nodes[i].value.from);
        if one.Unresolved? {
          return has, Some(one.error);
        }
        if n.securityGroups == None {
          n.securityGroups := Some([]);
        }
        var cell := new Cell(one.id);
        ValuesOfSnoc(n.securityGroups, cell);
        n.securityGroups := Some(n.securityGroups.value + [cell]);
      }
    }
    assert refs[|nodes|..] == [];
  }

  method AppendSubnets(w: World, home: string, n: NetworkNode) returns (has: bool, error: Option<RefError>)
    modifies n
    ensures var v := old(n.Value());
            var r := ResolveList(w, home, Subnet, Elements(v.subnetRefs), v.subnets);
            n.Value() == v.(subnets := r.value) && has == r.has && error == r.error
    ensures forall o :: o in n.Graph() ==> o in old(n.Graph()) || fresh(o)
  {
    hide ResolveOne, RefOf, RefsGraph;
    has, error := false, None;
    var nodes := Elements(n.subnetRefs);
    ghost var refs := Elements(RefsOf(n.subnetRefs));
    ghost var all := ResolveList(w, home, Subnet, refs, ValuesOf(n.subnets));
    for i := 0 to |nodes|
      invariant n.subnetRefs == old(n.subnetRefs)
      invariant n.securityGroups == old(n.securityGroups) && n.securityGroupRefs == old(n.securityGroupRefs)
      invariant forall o :: o in NodesOf(n.subnets) ==> o in old(NodesOf(n.subnets)) || fresh(o)
      invariant var rest := ResolveList(w, home, Subnet, refs[i..], ValuesOf(n.subnets));
                all == Resolving(rest.value, has || rest.has, rest.error)
    {
      assert refs[i..][1..] == refs[i + 1..];
      FromOfRef(nodes[i]);
      if nodes[i] != null && nodes[i].value.from != null {
        has := true;
        var one := Follow(w, home, Subnet, nodes[i].value.from);
        if one.Unresolved? {
          return has, Some(one.error);
        }
        if n.subnets == None {
          n.subnets := Some([]);
        }
        var cell := new Cell(one.id);
        ValuesOfSnoc(n.subnets, cell);
        n.subnets := Some(n.subnets.value + [cell]);
      }
    }
    assert refs[|nodes|..] == [];
  }

  method ResolveSecurityGroups(w: World, home: string, s: SpecNode) returns (has: bool, error: Option<RefError>)
    modifies if s.mip == null || s.mip.template == null then null else s.mip.template.network
    ensures Resolving(s.Value(), has, error) == StepSecurityGroups(w, home, old(s.Value())) && OnlyNew(s)
  {
    hide ResolveList, NetworkNode.Value, NetworkNode.Graph, AsgpNode.Value, AsgpNode.Graph;
    hide SpecNode.Leaves, MipNode.Leaves, TemplateNode.Leaves;
    has, error := false, None;
    if s.mip != null {
      if s.mip.template != null {
        if s.mip.template.network != null {
          has, error := AppendSecurityGroups(w, home, s.mip.template.network);
        }
      }
    }
  }

  method ResolveSubnets(w: World, home: string, s: SpecNode) returns (has: bool, error: Option<RefError>)
    modifies if s.mip == null || s.mip.template == null then null else s.mip.template.network
    ensures Resolving(s.Value(), has, error) == StepSubnets(w, home, old(s.Value())) && OnlyNew(s)
  {
    hide ResolveList, NetworkNode.Value, NetworkNode.Graph, AsgpNode.Value, AsgpNode.Graph;
    hide SpecNode.Leaves, MipNode.Leaves, TemplateNode.Leaves;
    has, error := false, None;
    if s.mip != null {
      if s.mip.template != null {
        if s.mip.template.network != null {
          has, error := AppendSubnets(w, home, s.mip.template.network);
        }
      }
    }
  }

  /** What the fields that validation reads say of the value. */
  lemma ValueParts(s: SpecNode)
    ensures var v := s.Value();
            && (v.asgp.Some? <==> s.asgp != null)
            && (s.asgp != null ==> v.asgp.value.arn == ValueOf(s.asgp.arn) && v.asgp.value.ref == RefOf(s.asgp.ref))
            && v.cluster == ValueOf(s.cluster) && v.clusterRef == RefOf(s.clusterRef)
            && (v.mip.Some? <==> s.mip != null)
            && (s.mip != null ==>
                  v.mip.value.roleArn == ValueOf(s.mip.roleArn) && v.mip.value.roleRef == RefOf(s.mip.roleRef))
    ensures var t := TemplateOf(s.Value());
            && (t.Some? <==> s.mip != null && s.mip.template != null)
            && (t.Some? ==> t.value.profileArn == ValueOf(s.mip.template.profileArn)
                            && t.value.profileRef == RefOf(s.mip.template.profileRef))
    ensures var n := NetworkOf(s.Value());
            && (n.Some? <==> s.mip != null && s.mip.template != null && s.mip.template.network != null)
            && (n.Some? ==> n.value == s.mip.template.network.Value())
  {
  }

  method ValidateReferenceFields(s: SpecNode) returns (e: Option<RefError>)
    ensures e == Validate(s.Value())
  {
    hide SpecNode.Value;
    ValueParts(s);
    if s.asgp != null {
      if s.asgp.ref != null && s.asgp.arn != null {
        return Some(ReferenceAndId(AutoScalingGroup));
      }
    }
    if s.clusterRef != null && s.cluster != null {
      return Some(ReferenceAndId(Cluster));
    }
    if s.mip != null {
      if s.mip.roleRef != null && s.mip.roleArn != null {
        return Some(ReferenceAndId(Role));
      }
    }
    if s.mip != null {
      if s.mip.template != null {
        if s.mip.template.profileRef != null && s.mip.template.profileArn != null {
          return Some(ReferenceAndId(InstanceProfile));
        }
      }
    }
    if s.mip != null {
      if s.mip.template != null {
        if s.mip.template.network != null {
          var n := s.mip.template.network;
          if |Elements(n.securityGroupRefs)| > 0 && |Elements(n.securityGroups)| > 0 {
            return Some(ReferenceAndId(SecurityGroup));
          }
        }
      }
    }
    if s.mip != null {
      if s.mip.template != null {
        if s.mip.template.network != null {
          var n := s.mip.template.network;
          if |Elements(n.subnetRefs)| > 0 && |Elements(n.subnets)| > 0 {
            return Some(ReferenceAndId(Subnet));
          }
        }
      }
    }
    return None;
  }

  function WithHas<T>(has: bool, r: Resolving<T>): Resolving<T> {
    r.(has := has || r.has)
  }

  lemma NextField(w: World, home: string, k: nat, s: Spec, has: bool)
    requires k < |FIELDS|
    ensures var r := Step(w, home, FIELDS[k], s);
            WithHas(has, ResolveFields(w, home, FIELDS[k..], s))
            == if r.error.Some? then WithHas(has, r)
               else WithHas(has || r.has, ResolveFields(w, home, FIELDS[k + 1..], r.value))
  {
  }

  /** The first three resolvers in turn, up to the first that fails. */
  method ResolveFirst(w: World, home: string, s: SpecNode) returns (has: bool, error: Option<RefError>)
    modifies s, s.asgp, s.mip
    ensures var all := ResolveFields(w, home, FIELDS, old(s.Value()));
            all == if error.Some? then Resolving(s.Value(), has, error)
                   else WithHas(has, ResolveFields(w, home, FIELDS[3..], s.Value()))
    ensures OnlyNew(s) && s.asgp == old(s.asgp) && s.mip == old(s.mip)
    ensures s.mip != null ==> s.mip.template == old(s.mip.template)
  {
    hide SpecNode.Value, SpecNode.Graph, ResolveFields, StepAsgp, StepCluster, StepRole;
    var fieldHas;
    assert FIELDS[0..] == FIELDS;
    NextField(w, home, 0, s.Value(), false);
    has, error := ResolveAsgp(w, home, s);
    if error.Some? { return; }
    NextField(w, home, 1, s.Value(), has);
    fieldHas, error := ResolveCluster(w, home, s);
    has := has || fieldHas;
    if error.Some? { return; }
    NextField(w, home, 2, s.Value(), has);
    fieldHas, error := ResolveRole(w, home, s);
    has := has || fieldHas;
  }

  /** The last three resolvers, after the boolean of the first. */
  method ResolveRest(w: World, home: string, s: SpecNode, before: bool) returns (has: bool, error: Option<RefError>)
    modifies if s.mip == null then null else s.mip.template
    modifies if s.mip == null || s.mip.template == null then null else s.mip.template.network
    ensures Resolving(s.Value(), has, error)
         == WithHas(before, ResolveFields(w, home, FIELDS[3..], old(s.Value())))
    ensures OnlyNew(s)
  {
    hide SpecNode.Value, SpecNode.Graph, ResolveFields, StepProfile, StepSecurityGroups, StepSubnets;
    var fieldHas;
    NextField(w, home, 3, s.Value(), before);
    fieldHas, error := ResolveProfile(w, home, s);
    has := before || fieldHas;
    if error.Some? { return; }
    NextField(w, home, 4, s.Value(), has);
    fieldHas, error := ResolveSecurityGroups(w, home, s);
    has := has || fieldHas;
    if error.Some? { return; }
    NextField(w, home, 5, s.Value(), has);
    fieldHas, error := ResolveSubnets(w, home, s);
    has := has || fieldHas;
    assert FIELDS[6..] == [];
    NoFields(w, home, s.Value());
  }

  /** The validation and the resolvers, on the caller's own spec. */
  method ResolveInPlace(w: World, home: string, s: SpecNode) returns (has: bool, error: Option<RefError>)
    modifies s, s.asgp, s.mip, if s.mip == null then null else s.mip.template
    modifies if s.mip == null || s.mip.template == null then null else s.mip.template.network
    ensures Resolving(s.Value(), has, error) == Resolve(w, home, old(s.Value()))
    ensures OnlyNew(s)
  {
    hide SpecNode.Value, SpecNode.Graph, Validate, ResolveFields;
    var invalid := ValidateReferenceFields(s);
    has, error := ResolveFirst(w, home, s);
    if error.Some? {
      return;
    }
    has, error := ResolveRest(w, home, s, has);
    if error.None? {
      error := invalid;
    }
  }

  lemma NoFields(w: World, home: string, s: Spec)
    ensures ResolveFields(w, home, [], s) == Resolving(s, false, None)
  {
  }

  /** The resource that comes back is the caller's own: what the resolvers wrote before one
      of them failed stays in it. */
  method ResolveReferences(w: World, res: CapacityProviderNode)
    returns (out: CapacityProviderNode, has: bool, error: Option<RefError>)
    modifies res.spec, res.spec.asgp, res.spec.mip, if res.spec.mip == null then null else res.spec.mip.template
    modifies if res.spec.mip == null || res.spec.mip.template == null then null else res.spec.mip.template.network
    ensures out == res
    ensures var r := Resolve(w, res.namespace, old(res.Value()).spec);
            has == r.has && error == r.error && res.Value() == old(res.Value()).(spec := r.value)
    ensures forall o :: o in res.Graph() ==> o in old(res.Graph()) || fresh(o)
  {
    hide SpecNode.Value, SpecNode.Graph, Resolve;
    ghost var conditions := Elements(res.status.conditions);
    has, error := ResolveInPlace(w, res.namespace, res.spec);
    assert ConditionValues(conditions) == old(ConditionValues(conditions));
    return res, has, error;
  }

  // ---- restoring ----

  /** Containers stay or are new, and every object of the graph was in it, was handed in, or is new. */
  twostate predicate Grown(s: SpecNode, given: set<object>)
    reads s, s.asgp, s.mip, if s.mip == null then null else s.mip.template
    reads if s.mip == null || s.mip.template == null then null else s.mip.template.network
  {
    && (s.mip != null ==> fresh(s.mip) || s.mip == old(s.mip))
    && (s.mip != null && s.mip.template != null ==>
          fresh(s.mip.template) || (old(s.mip) != null && s.mip.template == old(s.mip.template)))
    && (s.mip != null && s.mip.template != null && s.mip.template.network != null ==>
          || fresh(s.mip.template.network)
          || (old(s.mip) != null && old(s.mip.template) != null
              && s.mip.template.network == old(s.mip.template.network)))
    && (forall o :: o in s.Graph() ==> o in old(s.Graph()) || o in given || fresh(o))
  }

  method OpenMipNode(s: SpecNode)
    modifies s
    ensures s.Value() == OpenMip(old(s.Value())) && Grown(s, {})
    ensures s.mip != null && s.mip.template == if old(s.mip) == null then null else old(s.mip.template)
  {
    if s.mip == null {
      s.mip := new MipNode();
    }
  }

  method OpenTemplateIn(m: MipNode)
    modifies m
    ensures m.template != null && (m.template == old(m.template) || fresh(m.template))
    ensures m.template.network == if old(m.template) == null then null else old(m.template.network)
    ensures var v := old(m.Value());
            m.Value() == v.(template := Some(OrElse(v.template, EMPTY_TEMPLATE)))
    ensures forall o :: o in m.Graph() ==> o in old(m.Graph()) || fresh(o)
  {
    hide TemplateNode.Value, TemplateNode.Graph, RefGraph, AutoRepairGraph, OptimizationGraph;
    if m.template == null {
      m.template := new TemplateNode();
    }
  }

  method OpenTemplateNode(s: SpecNode)
    modifies s, s.mip
    ensures s.Value() == OpenTemplate(old(s.Value())) && Grown(s, {})
    ensures s.mip != null && s.mip.template != null
    ensures s.mip.template.network == if old(s.mip) == null || old(s.mip.template) == null then null
                                      else old(s.mip.template.network)
  {
    hide MipNode.Value, MipNode.Graph, AsgpNode.Value, AsgpNode.Graph, SpecNode.Leaves, OpenMip;
    OpenMipNode(s);
    OpenTemplateIn(s.mip);
  }

  method PutAsgpRef(ref: Cell<WrapperStruct>, a: AsgpNode)
    modifies a
    ensures var v := old(a.Value());
            a.Value() == v.(ref := Pick(RefOf(ref), v.ref))
    ensures a.Graph() <= old(a.Graph()) + RefGraph(ref)
  {
    hide ScalingOf, ScalingGraph, FromGraph;
    if a.ref == null {
      a.ref := ref;
    }
  }

  method GiveAsgpRef(ref: Cell?<WrapperStruct>, s: SpecNode)
    modifies s, s.asgp
    ensures s.Value() == GiveAsgp(RefOf(ref), old(s.Value())) && Grown(s, RefGraph(ref))
  {
    hide AsgpNode.Value, AsgpNode.Graph, MipNode.Value, MipNode.Graph, RefGraph, TagListOf, TagsGraph;
    if ref != null {
      if s.asgp == null {
        s.asgp := new AsgpNode();
      }
      PutAsgpRef(ref, s.asgp);
    }
  }

  method OpenNetworkIn(t: TemplateNode)
    modifies t
    ensures t.network != null && (t.network == old(t.network) || fresh(t.network))
    ensures var v := old(t.Value());
            t.Value() == v.(network := Some(OrElse(v.network, EMPTY_NETWORK)))
    ensures forall o :: o in t.Graph() ==> o in old(t.Graph()) || fresh(o)
  {
    hide NetworkNode.Value, NetworkNode.Graph, RefGraph, RequirementsOf, RequirementsGraph;
    hide ReservationsGraph, LocalStorageGraph, StorageGraph;
    if t.network == null {
      t.network := new NetworkNode();
    }
  }

  method OpenNetworkNode(s: SpecNode)
    modifies s, s.mip, if s.mip == null then null else s.mip.template
    ensures s.Value() == OpenNetwork(old(s.Value())) && Grown(s, {})
    ensures s.mip != null && s.mip.template != null && s.mip.template.network != null
  {
    hide TemplateNode.Value, TemplateNode.Graph, AsgpNode.Value, AsgpNode.Graph, SpecNode.Leaves, MipNode.Leaves;
    hide OpenTemplate;
    OpenTemplateNode(s);
    OpenNetworkIn(s.mip.template);
  }

  method PutRoleRef(ref: Cell<WrapperStruct>, m: MipNode)
    modifies m
    ensures m.template == old(m.template)
    ensures var v := old(m.Value());
            m.Value() == v.(roleRef := Pick(RefOf(ref), v.roleRef))
    ensures m.Graph() <= old(m.Graph()) + RefGraph(ref)
  {
    hide TemplateNode.Value, TemplateNode.Graph, AutoRepairGraph, OptimizationGraph, FromGraph;
    if m.roleRef == null {
      m.roleRef := ref;
    }
  }

  method GiveRoleRef(ref: Cell?<WrapperStruct>, s: SpecNode)
    modifies s, s.mip
    ensures s.Value() == GiveRole(RefOf(ref), old(s.Value())) && Grown(s, RefGraph(ref))
  {
    hide AsgpNode.Value, AsgpNode.Graph, MipNode.Value, MipNode.Graph, OpenMip, SpecNode.Leaves, RefGraph;
    if ref != null {
      OpenMipNode(s);
      PutRoleRef(ref, s.mip);
    }
  }

  method PutProfileRef(ref: Cell<WrapperStruct>, t: TemplateNode)
    modifies t
    ensures t.network == old(t.network)
    ensures var v := old(t.Value());
            t.Value() == v.(profileRef := Pick(RefOf(ref), v.profileRef))
    ensures t.Graph() <= old(t.Graph()) + RefGraph(ref)
  {
    hide NetworkNode.Value, NetworkNode.Graph, FromGraph, RequirementsOf, RequirementsGraph;
    hide ReservationsGraph, LocalStorageGraph, StorageGraph;
    if t.profileRef == null {
      t.profileRef := ref;
    }
  }

  method GiveProfileRef(ref: Cell?<WrapperStruct>, s: SpecNode)
    modifies s, s.mip, if s.mip == null then null else s.mip.template
    ensures s.Value() == GiveProfile(RefOf(ref), old(s.Value())) && Grown(s, RefGraph(ref))
  {
    hide AsgpNode.Value, AsgpNode.Graph, TemplateNode.Value, TemplateNode.Graph, SpecNode.Leaves, MipNode.Leaves;
    hide OpenTemplate, RefGraph;
    if ref != null {
      OpenTemplateNode(s);
      PutProfileRef(ref, s.mip.template);
    }
  }

  lemma ElementsOfRefs(cs: Slice<Cell?<WrapperStruct>>)
    ensures Elements(RefsOf(cs)) == [] <==> |Elements(cs)| == 0
  {
  }

  method PutSecurityGroupRefs(refs: Slice<Cell?<WrapperStruct>>, n: NetworkNode)
    requires |Elements(refs)| > 0
    modifies n
    ensures var v := old(n.Value());
            n.Value() == v.(securityGroupRefs := PickList(RefsOf(refs), v.securityGroupRefs))
    ensures n.Graph() <= old(n.Graph()) + RefsGraph(refs)
  {
    if |Elements(n.securityGroupRefs)| == 0 {
      n.securityGroupRefs := refs;
    }
  }

  method PutSubnetRefs(refs: Slice<Cell?<WrapperStruct>>, n: NetworkNode)
    requires |Elements(refs)| > 0
    modifies n
    ensures var v := old(n.Value());
            n.Value() == v.(subnetRefs := PickList(RefsOf(refs), v.subnetRefs))
    ensures n.Graph() <= old(n.Graph()) + RefsGraph(refs)
  {
    if |Elements(n.subnetRefs)| == 0 {
      n.subnetRefs := refs;
    }
  }

  method GiveSecurityGroupRefs(refs: Slice<Cell?<WrapperStruct>>, s: SpecNode)
    modifies s, s.mip, if s.mip == null then null else s.mip.template
    modifies if s.mip == null || s.mip.template == null then null else s.mip.template.network
    ensures s.Value() == GiveSecurityGroups(RefsOf(refs), old(s.Value())) && Grown(s, RefsGraph(refs))
  {
    hide NetworkNode.Value, NetworkNode.Graph, RefsOf, RefsGraph, OpenNetwork, PickList;
    hide AsgpNode.Value, AsgpNode.Graph, SpecNode.Leaves, MipNode.Leaves, TemplateNode.Leaves;
    ElementsOfRefs(refs);
    if |Elements(refs)| > 0 {
      OpenNetworkNode(s);
      PutSecurityGroupRefs(refs, s.mip.template.network);
    }
  }

  method GiveSubnetRefs(refs: Slice<Cell?<WrapperStruct>>, s: SpecNode)
    modifies s, s.mip, if s.mip == null then null else s.mip.template
    modifies if s.mip == null || s.mip.template == null then null else s.mip.template.network
    ensures s.Value() == GiveSubnets(RefsOf(refs), old(s.Value())) && Grown(s, RefsGraph(refs))
  {
    hide NetworkNode.Value, NetworkNode.Graph, RefsOf, RefsGraph, OpenNetwork, PickList;
    hide AsgpNode.Value, AsgpNode.Graph, SpecNode.Leaves, MipNode.Leaves, TemplateNode.Leaves;
    ElementsOfRefs(refs);
    if |Elements(refs)| > 0 {
      OpenNetworkNode(s);
      PutSubnetRefs(refs, s.mip.template.network);
    }
  }

  method GiveNetworkRefs(n: NetworkNode, s: SpecNode)
    requires s.mip != null && s.mip.template != null ==> n != s.mip.template.network
    modifies s, s.mip, if s.mip == null then null else s.mip.template
    modifies if s.mip == null || s.mip.template == null then null else s.mip.template.network
    ensures s.Value() == GiveNetwork(Some(old(n.Value())), old(s.Value())) && Grown(s, old(n.Graph()))
  {
    hide SpecNode.Value, SpecNode.Graph, RefsOf, RefsGraph, GiveSecurityGroups, GiveSubnets;
    GiveSecurityGroupRefs(n.securityGroupRefs, s);
    GiveSubnetRefs(n.subnetRefs, s);
  }

  lemma GiveNoNetwork(l: Spec)
    ensures GiveNetwork(None, l) == l
  {
  }

  method GiveTemplateRefs(t: TemplateNode, s: SpecNode)
    requires s.mip != null ==> t != s.mip.template
    requires s.mip != null && s.mip.template != null && t.network != null ==> t.network != s.mip.template.network
    modifies s, s.mip, if s.mip == null then null else s.mip.template
    modifies if s.mip == null || s.mip.template == null then null else s.mip.template.network
    ensures s.Value() == GiveTemplate(Some(old(t.Value())), old(s.Value())) && Grown(s, old(t.Graph()))
  {
    hide SpecNode.Value, SpecNode.Graph, NetworkNode.Value, NetworkNode.Graph, GiveProfile, GiveNetwork;
    hide RequirementsOf, RequirementsGraph, ReservationsGraph, LocalStorageGraph, StorageGraph, RefGraph;
    var n := t.network;
    GiveProfileRef(t.profileRef, s);
    if n == null {
      GiveNoNetwork(s.Value());
      return;
    }
    GiveNetworkRefs(n, s);
  }

  lemma GiveNoTemplate(l: Spec)
    ensures GiveTemplate(None, l) == l
  {
  }

  lemma PartsOfMip(m: MipNode)
    ensures m.Value().roleRef == RefOf(m.roleRef)
    ensures m.Value().template == if m.template == null then None else Some(m.template.Value())
    ensures RefGraph(m.roleRef) <= m.Graph()
    ensures m.template != null ==> m.template.Graph() <= m.Graph()
  {
  }

  method GiveMipRefs(m: MipNode, s: SpecNode)
    requires m != s.mip
    requires s.mip != null && m.template != null ==> m.template != s.mip.template
    requires s.mip != null && s.mip.template != null && m.template != null && m.template.network != null ==>
               m.template.network != s.mip.template.network
    modifies s, s.mip, if s.mip == null then null else s.mip.template
    modifies if s.mip == null || s.mip.template == null then null else s.mip.template.network
    ensures var d := old(m.Value());
            s.Value() == GiveTemplate(d.template, GiveRole(d.roleRef, old(s.Value()))) && Grown(s, old(m.Graph()))
  {
    hide SpecNode.Value, SpecNode.Graph, TemplateNode.Value, TemplateNode.Graph, GiveRole, GiveTemplate;
    hide MipNode.Value, MipNode.Graph, RefOf, RefGraph;
    PartsOfMip(m);
    var t := m.template;
    GiveRoleRef(m.roleRef, s);
    if t == null {
      GiveNoTemplate(s.Value());
      return;
    }
    GiveTemplateRefs(t, s);
  }

  ghost predicate Apart(d: SpecNode, s: SpecNode)
    reads d, d.mip, if d.mip == null then null else d.mip.template
    reads s, s.mip, if s.mip == null then null else s.mip.template
  {
    && d != s
    && (d.asgp != null ==> d.asgp != s.asgp)
    && (d.mip != null ==> d.mip != s.mip)
    && (d.mip != null && s.mip != null && d.mip.template != null ==>
          && d.mip.template != s.mip.template
          && (s.mip.template != null && d.mip.template.network != null ==>
                d.mip.template.network != s.mip.template.network))
  }

  method RestoreInPlace(d: SpecNode, s: SpecNode)
    requires Apart(d, s)
    modifies s, s.asgp, s.mip, if s.mip == null then null else s.mip.template
    modifies if s.mip == null || s.mip.template == null then null else s.mip.template.network
    ensures s.Value() == Ensure(old(d.Value()), old(s.Value())) && Grown(s, old(d.Graph()))
  {
    hide MipNode.Value, MipNode.Graph, SpecNode.Leaves, RefGraph, GiveTemplate, GiveRole, GiveAsgp, Ensure;
    EnsureFieldByField(d.Value(), s.Value());
    if d.asgp != null {
      GiveAsgpRef(d.asgp.ref, s);
    }
    if d.mip != null {
      GiveMipRefs(d.mip, s);
    }
  }

  method CopyBoth(desired: CapacityProviderNode, latest: CapacityProviderNode)
    returns (desiredKO: CapacityProviderNode, latestKO: CapacityProviderNode)
    ensures fresh(desiredKO.Graph()) && desiredKO.Value() == old(desired.Value())
    ensures fresh(latestKO.Graph()) && latestKO.Value() == old(latest.Value())
    ensures Apart(desiredKO.spec, latestKO.spec)
  {
    hide SpecNode.Value, SpecNode.Graph, StatusNode.Value, StatusNode.Graph;
    desiredKO := desired.DeepCopy();
    GraphMembers(desiredKO.spec);
    label Copied:
    SameStatus(latest.status);
    latestKO := latest.DeepCopy();
    SameStatus@Copied(desiredKO.status);
    GraphMembers(latestKO.spec);
  }

  /** Both resources are copied first, so the result shares no object with either. */
  method EnsureReferences(desired: CapacityProviderNode, latest: CapacityProviderNode)
    returns (out: CapacityProviderNode)
    ensures fresh(out.Graph())
    ensures var l := old(latest.Value());
            out.Value() == l.(spec := Ensure(old(desired.Value()).spec, l.spec))
  {
    hide SpecNode.Value, SpecNode.Graph, StatusNode.Value, StatusNode.Graph, Ensure;
    hide Apart;
    var desiredKO, latestKO := CopyBoth(desired, latest);
    GraphMembers(latestKO.spec);
    label Copied:
    RestoreInPlace(desiredKO.spec, latestKO.spec);
    SameStatus@Copied(latestKO.status);
    return latestKO;
  }
}
