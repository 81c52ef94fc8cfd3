/** Laws of the reference pipeline that span several of its operations. */
module ReferenceLaws {
  import opened ApiTypes
  import opened References

  // ---- what a successful resolution says about the referenced objects ----

  /** The reference names an object that is read; o is what is read of it. */
  ghost predicate Reads(w: World, home: string, kind: Kind, r: Reference, namespace: string, o: RefObject) {
    && r.name.Some? && r.name.value != ""
    && w.crossNamespace(home, r.namespace, r.name.value) == Got(namespace)
    && w.get(kind, namespace, r.name.value) == Got(o)
  }

  ghost predicate HasConditionTrue(o: RefObject, kind: ConditionType) {
    exists c :: c in o.conditions && c.kind == kind && c.status == True
  }

  /** The object has the value the field needs: the name in the spec of a cluster, the id of a
      security group or subnet, the ARN of anything else. */
  ghost predicate HasValue(kind: Kind, o: RefObject, id: string) {
    && (kind == Cluster ==> o.specName == Some(id))
    && (kind == SecurityGroup ==> o.statusId == Some(id))
    && (kind == Subnet ==> o.statusSubnetId == Some(id))
    && (kind in {AutoScalingGroup, Role, InstanceProfile} ==> o.arn == Some(id))
  }

  /** The object is found, Synced=True, not Terminal=True, and has the value the field needs. */
  ghost predicate Ready(w: World, home: string, kind: Kind, r: Reference, id: string) {
    exists namespace, o :: Reads(w, home, kind, r, namespace, o)
      && HasConditionTrue(o, ResourceSynced) && !HasConditionTrue(o, Terminal) && HasValue(kind, o, id)
  }

  ghost predicate IsReady(w: World, home: string, kind: Kind, r: Reference) {
    exists id :: Ready(w, home, kind, r, id)
  }

  /** The condition under which each error is given. */
  ghost predicate FailsWith(w: World, home: string, kind: Kind, r: Reference, e: RefError) {
    match e
    case ReferenceAndId(_) => false
    case NameMissing(k) => k == kind && (r.name.None? || r.name.value == "")
    case CrossNamespace(reason) =>
      r.name.Some? && r.name.value != "" && w.crossNamespace(home, r.namespace, r.name.value) == Failed(reason)
    case ReadFailed(reason) =>
      r.name.Some? && r.name.value != "" && w.crossNamespace(home, r.namespace, r.name.value).Got?
      && w.get(kind, w.crossNamespace(home, r.namespace, r.name.value).value, r.name.value) == Failed(reason)
    case ReferenceTerminal(k, namespace, name) =>
      k == kind && r.name == Some(name)
      && exists o :: Reads(w, home, kind, r, namespace, o) && HasConditionTrue(o, Terminal)
    case ReferenceNotSynced(k, namespace, name) =>
      k == kind && r.name == Some(name)
      && exists o :: Reads(w, home, kind, r, namespace, o)
           && !HasConditionTrue(o, Terminal) && !HasConditionTrue(o, ResourceSynced)
    case ReferenceMissingTarget(k, namespace, name) =>
      k == kind && r.name == Some(name)
      && exists o :: Reads(w, home, kind, r, namespace, o)
           && !HasConditionTrue(o, Terminal) && HasConditionTrue(o, ResourceSynced)
           && forall id :: !HasValue(kind, o, id)
  }

  lemma ConditionTrueMeans(o: RefObject, kind: ConditionType)
    ensures HasTrue(o.conditions, kind) <==> HasConditionTrue(o, kind)
  {
    if i :| 0 <= i < |o.conditions| && o.conditions[i].kind == kind && o.conditions[i].status == True {
      assert o.conditions[i] in o.conditions;
    }
  }

  lemma TargetMeans(kind: Kind, o: RefObject)
    ensures forall id :: Target(kind, o) == Some(id) <==> HasValue(kind, o, id)
    ensures Target(kind, o).None? <==> forall id :: !HasValue(kind, o, id)
  {
    if Target(kind, o).Some? {
      assert HasValue(kind, o, Target(kind, o).value);
    }
  }

  lemma ResolvedIffReady(w: World, home: string, kind: Kind, r: Reference, id: string)
    ensures ResolveOne(w, home, kind, r) == Resolved(id) <==> Ready(w, home, kind, r, id)
  {
    forall namespace, o | Reads(w, home, kind, r, namespace, o)
      ensures ResolveOne(w, home, kind, r) == Resolved(id)
         <==> HasConditionTrue(o, ResourceSynced) && !HasConditionTrue(o, Terminal) && HasValue(kind, o, id)
    {
      ConditionTrueMeans(o, Terminal);
      ConditionTrueMeans(o, ResourceSynced);
      TargetMeans(kind, o);
      hide HasTrue, Target, HasConditionTrue, HasValue;
    }
    hide StateError, HasConditionTrue, HasValue;
    if ResolveOne(w, home, kind, r) == Resolved(id) {
      var namespace := w.crossNamespace(home, r.namespace, r.name.value).value;
      assert Reads(w, home, kind, r, namespace, w.get(kind, namespace, r.name.value).value);
    }
  }

  lemma ResolvedIffIsReady(w: World, home: string, kind: Kind, r: Reference)
    ensures ResolveOne(w, home, kind, r).Resolved? <==> IsReady(w, home, kind, r)
  {
    hide Ready, ResolveOne;
    var one := ResolveOne(w, home, kind, r);
    if one.Resolved? {
      ResolvedIffReady(w, home, kind, r, one.id);
    }
    if id :| Ready(w, home, kind, r, id) {
      ResolvedIffReady(w, home, kind, r, id);
    }
  }

  lemma FailsIff(w: World, home: string, kind: Kind, r: Reference, e: RefError)
    ensures ResolveOne(w, home, kind, r) == Unresolved(e) <==> FailsWith(w, home, kind, r, e)
  {
    if r.name.Some? && r.name.value != "" {
      var namespace := w.crossNamespace(home, r.namespace, r.name.value);
      if namespace.Got? {
        var o := w.get(kind, namespace.value, r.name.value);
        if o.Got? {
          assert Reads(w, home, kind, r, namespace.value, o.value);
          ConditionTrueMeans(o.value, Terminal);
          ConditionTrueMeans(o.value, ResourceSynced);
          TargetMeans(kind, o.value);
        }
      }
    }
    hide HasTrue, Target, HasConditionTrue, HasValue;
  }

  lemma {:induction false} NoFailureMeans(w: World, home: string, rs: seq<(Kind, Reference)>)
    ensures FirstFailure(w, home, rs).None?
       <==> forall i :: 0 <= i < |rs| ==> ResolveOne(w, home, rs[i].0, rs[i].1).Resolved?
    ensures FirstFailure(w, home, rs).None? ==> |Ids(w, home, rs)| == |rs|
    ensures FirstFailure(w, home, rs).None? ==>
              forall i :: 0 <= i < |rs| ==>
                Ids(w, home, rs)[i] == Some(ResolveOne(w, home, rs[i].0, rs[i].1).id)
  {
    if rs != [] {
      NoFailureMeans(w, home, rs[1..]);
      assert forall i :: 0 < i < |rs| ==> rs[i] == rs[1..][i - 1];
      if FirstFailure(w, home, rs).Some? && ResolveOne(w, home, rs[0].0, rs[0].1).Resolved? {
        var i :| 0 <= i < |rs[1..]| && !ResolveOne(w, home, rs[1..][i].0, rs[1..][i].1).Resolved?;
        assert rs[i + 1] == rs[1..][i];
      }
    }
  }

  lemma {:induction false} FollowedElements(kind: Kind, refs: seq<Option<RefWrapper>>)
    ensures forall x :: x in Followed(kind, refs) ==> x.0 == kind
    ensures forall r :: ((kind, r) in Followed(kind, refs)
       <==> exists i :: 0 <= i < |refs| && refs[i] == Some(RefWrapper(Some(r))))
  {
    if refs != [] {
      FollowedElements(kind, refs[1..]);
      forall r
        ensures (kind, r) in Followed(kind, refs)
           <==> exists i :: 0 <= i < |refs| && refs[i] == Some(RefWrapper(Some(r)))
      {
        if i :| 0 <= i < |refs[1..]| && refs[1..][i] == Some(RefWrapper(Some(r))) {
          assert refs[i + 1] == Some(RefWrapper(Some(r)));
        }
        if i :| 0 <= i < |refs| && refs[i] == Some(RefWrapper(Some(r))) {
          if i > 0 {
            assert refs[1..][i - 1] == refs[i];
          }
        }
      }
    }
  }

  lemma {:induction false} AllFollowedElements(kinds: seq<Kind>, s: Spec, kind: Kind, r: Reference)
    ensures (kind, r) in AllFollowed(kinds, s) <==> kind in kinds && (kind, r) in Followed(kind, RefsAt(kind, s))
  {
    if kinds != [] {
      AllFollowedElements(kinds[1..], s, kind, r);
      FollowedElements(kinds[0], RefsAt(kinds[0], s));
    }
  }

  /** Declared: the field refers to r and the resolver follows it. */
  ghost predicate Declared(s: Spec, kind: Kind, r: Reference) {
    Some(RefWrapper(Some(r))) in RefsAt(kind, s)
  }

  lemma DeclaredIffFollowed(s: Spec, kind: Kind, r: Reference)
    ensures Declared(s, kind, r) <==> (kind, r) in AllFollowed(FIELDS, s)
  {
    AllFieldsAreFields(kind);
    AllFollowedElements(FIELDS, s, kind, r);
    FollowedElements(kind, RefsAt(kind, s));
  }

  /** ResolveReferences succeeds exactly when the validation accepts and every
      declared reference is ready; its boolean says whether there is one. */
  lemma SuccessIffAllReady(w: World, home: string, s: Spec)
    ensures Resolve(w, home, s).has <==> exists k, r :: Declared(s, k, r)
    ensures Resolve(w, home, s).error.None?
       <==> Validate(s).None? && forall k, r :: Declared(s, k, r) ==> IsReady(w, home, k, r)
  {
    hide Declared, ResolveOne, IsReady, FirstFailure, AllFollowed, Validate, ValuesAt, RefsAt, EraseValues, Resolve;
    var rs := AllFollowed(FIELDS, s);
    ResolveMeans(w, home, s);
    NoFailureMeans(w, home, rs);
    forall k, r
      ensures Declared(s, k, r) <==> (k, r) in rs
      ensures ResolveOne(w, home, k, r).Resolved? <==> IsReady(w, home, k, r)
    {
      DeclaredIffFollowed(s, k, r);
      ResolvedIffIsReady(w, home, k, r);
    }
    if rs != [] {
      assert (rs[0].0, rs[0].1) in rs;
    }
    if FirstFailure(w, home, rs).None? {
      forall k, r | Declared(s, k, r)
        ensures IsReady(w, home, k, r)
      {
        var i :| 0 <= i < |rs| && rs[i] == (k, r);
        assert ResolveOne(w, home, rs[i].0, rs[i].1).Resolved?;
      }
    } else {
      var i :| 0 <= i < |rs| && !ResolveOne(w, home, rs[i].0, rs[i].1).Resolved?;
      assert (rs[i].0, rs[i].1) in rs;
    }
  }

  /** On success every field that follows a reference holds exactly the ids of
      the referenced objects, in the order of the references. */
  lemma SuccessFillsInOrder(w: World, home: string, s: Spec, kind: Kind)
    requires Resolve(w, home, s).error.None?
    ensures var rs := Followed(kind, RefsAt(kind, s));
            var values := ValuesAt(kind, Resolve(w, home, s).value);
            && (rs == [] ==> values == ValuesAt(kind, s))
            && (rs != [] ==> |values| == |rs|)
            && (rs != [] ==> forall i :: 0 <= i < |rs| ==>
                  values[i].Some? && Ready(w, home, kind, rs[i].1, values[i].value))
  {
    hide Resolve, RefsAt, ValuesAt, EraseValues, Validate, AllFollowed;
    var rs := Followed(kind, RefsAt(kind, s));
    ResolveMeans(w, home, s);
    ValidMeans(s);
    SuccessIffAllReady(w, home, s);
    FollowedElements(kind, RefsAt(kind, s));
    forall i | 0 <= i < |rs|
      ensures ResolveOne(w, home, rs[i].0, rs[i].1).Resolved?
      ensures rs[i].0 == kind
    {
      assert rs[i] in rs && rs[i].0 == kind;
      assert (kind, rs[i].1) in rs;
      assert Declared(s, kind, rs[i].1);
      var id :| Ready(w, home, kind, rs[i].1, id);
      ResolvedIffReady(w, home, kind, rs[i].1, id);
    }
    NoFailureMeans(w, home, rs);
    if rs != [] {
      assert RefsAt(kind, s) != [];
      var values := ValuesAt(kind, Resolve(w, home, s).value);
      assert values == [] + Ids(w, home, rs);
      forall i | 0 <= i < |rs|
        ensures values[i].Some? && Ready(w, home, kind, rs[i].1, values[i].value)
      {
        ResolvedIffReady(w, home, kind, rs[i].1, values[i].value);
      }
    }
  }

  /** The four single fields, by name. */
  lemma SingleFieldsHold(w: World, home: string, s: Spec, r: Reference)
    requires Resolve(w, home, s).error.None?
    ensures var t := Resolve(w, home, s).value;
            && (s.asgp.Some? && s.asgp.value.ref == Some(RefWrapper(Some(r))) ==>
                  exists ns, o :: Reads(w, home, AutoScalingGroup, r, ns, o) && o.arn.Some?
                    && t.asgp.Some? && t.asgp.value.arn == o.arn)
            && (s.clusterRef == Some(RefWrapper(Some(r))) ==>
                  exists ns, o :: Reads(w, home, Cluster, r, ns, o) && o.specName.Some? && t.cluster == o.specName)
            && (s.mip.Some? && s.mip.value.roleRef == Some(RefWrapper(Some(r))) ==>
                  exists ns, o :: Reads(w, home, Role, r, ns, o) && o.arn.Some?
                    && t.mip.Some? && t.mip.value.roleArn == o.arn)
            && (TemplateOf(s).Some? && TemplateOf(s).value.profileRef == Some(RefWrapper(Some(r))) ==>
                  exists ns, o :: Reads(w, home, InstanceProfile, r, ns, o) && o.arn.Some?
                    && TemplateOf(t).Some? && TemplateOf(t).value.profileArn == o.arn)
  {
    hide Resolve, Followed, Reads;
    if s.asgp.Some? && s.asgp.value.ref == Some(RefWrapper(Some(r))) {
      var ns, o := SingleFieldHolds(w, home, s, AutoScalingGroup, r);
    }
    if s.clusterRef == Some(RefWrapper(Some(r))) {
      var ns, o := SingleFieldHolds(w, home, s, Cluster, r);
    }
    if s.mip.Some? && s.mip.value.roleRef == Some(RefWrapper(Some(r))) {
      var ns, o := SingleFieldHolds(w, home, s, Role, r);
    }
    if TemplateOf(s).Some? && TemplateOf(s).value.profileRef == Some(RefWrapper(Some(r))) {
      var ns, o := SingleFieldHolds(w, home, s, InstanceProfile, r);
    }
  }

  lemma SingleFieldHolds(w: World, home: string, s: Spec, k: Kind, r: Reference) returns (ns: string, o: RefObject)
    requires Resolve(w, home, s).error.None? && RefsAt(k, s) == [Some(RefWrapper(Some(r)))]
    ensures Reads(w, home, k, r, ns, o)
    ensures exists id :: HasValue(k, o, id) && ValuesAt(k, Resolve(w, home, s).value) == [Some(id)]
  {
    FollowedOne(k, r);
    SuccessFillsInOrder(w, home, s, k);
    var id := ValuesAt(k, Resolve(w, home, s).value)[0].value;
    hide Resolve, HasConditionTrue, Reads, HasValue;
    assert Ready(w, home, k, r, id);
    ns, o :| Reads(w, home, k, r, ns, o) && HasValue(k, o, id);
  }

  lemma FollowedOne(kind: Kind, r: Reference)
    ensures Followed(kind, [Some(RefWrapper(Some(r)))]) == [(kind, r)]
  {
    assert [Some(RefWrapper(Some(r)))][1..] == [];
  }

  // ---- what a failed resolution leaves behind ----

  /** The ids of the references before the first that does not resolve. */
  function IdsBefore(w: World, home: string, rs: seq<(Kind, Reference)>): seq<Option<string>> {
    if rs == [] then []
    else
      match ResolveOne(w, home, rs[0].0, rs[0].1)
      case Unresolved(_) => []
      case Resolved(id) => [Some(id)] + IdsBefore(w, home, rs[1..])
  }

  /** The values a field holds once its references up to the first failure are resolved. */
  function Reached(w: World, home: string, kind: Kind, s: Spec): seq<Option<string>> {
    var ids := IdsBefore(w, home, Followed(kind, RefsAt(kind, s)));
    if ids == [] then ValuesAt(kind, s)
    else (if IsListField(kind) then ValuesAt(kind, s) else []) + ids
  }

  lemma {:induction false} ListReaches(w: World, home: string, kind: Kind, refs: seq<Option<RefWrapper>>,
                                       current: StringPList)
    ensures var ids := IdsBefore(w, home, Followed(kind, refs));
            ResolveList(w, home, kind, refs, current).value
            == if ids == [] then current else Some(Elements(current) + ids)
  {
    hide ResolveOne;
    if refs != [] {
      var rs := Followed(kind, refs);
      if !HasFrom(refs[0]) {
        assert rs == Followed(kind, refs[1..]);
        ListReaches(w, home, kind, refs[1..], current);
      } else {
        assert rs[0] == (kind, refs[0].value.from.value) && rs[1..] == Followed(kind, refs[1..]);
        match ResolveOne(w, home, kind, refs[0].value.from.value) {
          case Unresolved(_) =>
          case Resolved(id) =>
            var next: StringPList := Some(Elements(current) + [Some(id)]);
            ListReaches(w, home, kind, refs[1..], next);
            OneMoreId(current, Some(id), IdsBefore(w, home, rs[1..]));
        }
      }
    }
  }

  lemma OneMoreId(current: StringPList, id: Option<string>, ids: seq<Option<string>>)
    ensures var next: StringPList := Some(Elements(current) + [id]);
            (if ids == [] then next else Some(Elements(next) + ids)) == Some(Elements(current) + ([id] + ids))
  {
    assert Elements(current) + [id] + ids == Elements(current) + ([id] + ids);
    assert ids == [] ==> [id] + ids == [id];
  }

  lemma FieldReaches(w: World, home: string, kind: Kind, ref: Option<RefWrapper>, current: Option<string>)
    ensures var ids := IdsBefore(w, home, Followed(kind, AsList(ref)));
            AsList(ResolveField(w, home, kind, ref, current).value) == if ids == [] then AsList(current) else ids
  {
    if HasFrom(ref) {
      FollowedOne(kind, ref.value.from.value);
    }
  }

  lemma StepReaches(w: World, home: string, kind: Kind, s: Spec)
    ensures ValuesAt(kind, Step(w, home, kind, s).value) == Reached(w, home, kind, s)
  {
    hide ResolveField, ResolveList;
    match kind
    case AutoScalingGroup =>
      if s.asgp.Some? { FieldReaches(w, home, kind, s.asgp.value.ref, s.asgp.value.arn); }
    case Cluster =>
      FieldReaches(w, home, kind, s.clusterRef, s.cluster);
    case Role =>
      if s.mip.Some? { FieldReaches(w, home, kind, s.mip.value.roleRef, s.mip.value.roleArn); }
    case InstanceProfile =>
      if TemplateOf(s).Some? {
        FieldReaches(w, home, kind, TemplateOf(s).value.profileRef, TemplateOf(s).value.profileArn);
      }
    case SecurityGroup =>
      if NetworkOf(s).Some? {
        var n := NetworkOf(s).value;
        ListReaches(w, home, kind, Elements(n.securityGroupRefs), n.securityGroups);
      }
    case Subnet =>
      if NetworkOf(s).Some? {
        var n := NetworkOf(s).value;
        ListReaches(w, home, kind, Elements(n.subnetRefs), n.subnets);
      }
  }

  /** The resolver of the n-th field is the first that fails. */
  ghost predicate StopsAt(w: World, home: string, kinds: seq<Kind>, s: Spec, n: nat) {
    && n < |kinds|
    && FirstFailure(w, home, Followed(kinds[n], RefsAt(kinds[n], s))).Some?
    && forall j :: 0 <= j < n ==> FirstFailure(w, home, Followed(kinds[j], RefsAt(kinds[j], s))).None?
  }

  lemma StepLeavesRest(w: World, home: string, kinds: seq<Kind>, s: Spec, n: nat)
    requires StopsAt(w, home, kinds, s, n) && n > 0
    ensures var t := Step(w, home, kinds[0], s).value;
            && StopsAt(w, home, kinds[1..], t, n - 1)
            && forall k: Kind :: k != kinds[0] ==>
                 ValuesAt(k, t) == ValuesAt(k, s) && Reached(w, home, k, t) == Reached(w, home, k, s)
  {
    StepFrame(w, home, kinds[0], s);
    hide Step, FirstFailure, Followed, ValuesAt, RefsAt, IdsBefore, EraseValues;
    assert forall j :: 0 < j < |kinds| ==> kinds[j] == kinds[1..][j - 1];
  }

  lemma {:induction false} FieldsStop(w: World, home: string, kinds: seq<Kind>, s: Spec, n: nat)
    requires Distinct(kinds) && StopsAt(w, home, kinds, s, n)
    ensures var r := ResolveFields(w, home, kinds, s);
            && r.error == FirstFailure(w, home, Followed(kinds[n], RefsAt(kinds[n], s)))
            && forall k: Kind :: ValuesAt(k, r.value)
                 == if k in kinds[..n + 1] then Reached(w, home, k, s) else ValuesAt(k, s)
  {
    var k0, t := kinds[0], Step(w, home, kinds[0], s).value;
    StepMeans(w, home, k0, s);
    StepReaches(w, home, k0, s);
    StepFrame(w, home, k0, s);
    assert kinds[..n + 1] == [k0] + kinds[1..][..n];
    if n > 0 {
      StepLeavesRest(w, home, kinds, s, n);
      FieldsStop(w, home, kinds[1..], t, n - 1);
      assert k0 !in kinds[1..];
      assert kinds[n] == kinds[1..][n - 1];
      assert FirstFailure(w, home, Followed(k0, RefsAt(k0, s))).None?;
    }
    hide Step, FirstFailure, Followed, ValuesAt, RefsAt, Reached, EraseValues, Landed;
  }

  lemma {:induction false} FailureStops(w: World, home: string, kinds: seq<Kind>, s: Spec) returns (n: nat)
    requires FirstFailure(w, home, AllFollowed(kinds, s)).Some?
    ensures StopsAt(w, home, kinds, s, n)
  {
    FirstFailureOfConcat(w, home, Followed(kinds[0], RefsAt(kinds[0], s)), AllFollowed(kinds[1..], s));
    if FirstFailure(w, home, Followed(kinds[0], RefsAt(kinds[0], s))).Some? {
      n := 0;
    } else {
      n := FailureStops(w, home, kinds[1..], s);
      n := n + 1;
    }
  }

  /** The i-th reference fails with e, and those before it are ready. */
  ghost predicate FailsFirstAt(w: World, home: string, rs: seq<(Kind, Reference)>, i: nat, e: RefError) {
    && i < |rs|
    && FailsWith(w, home, rs[i].0, rs[i].1, e)
    && forall j :: 0 <= j < i ==> IsReady(w, home, rs[j].0, rs[j].1)
  }

  lemma {:induction false} FailureIsFirst(w: World, home: string, rs: seq<(Kind, Reference)>) returns (i: nat)
    requires FirstFailure(w, home, rs).Some?
    ensures FailsFirstAt(w, home, rs, i, FirstFailure(w, home, rs).value)
  {
    hide Ready, FailsWith, ResolveOne;
    var one := ResolveOne(w, home, rs[0].0, rs[0].1);
    if one.Unresolved? {
      FailsIff(w, home, rs[0].0, rs[0].1, one.error);
      i := 0;
    } else {
      ResolvedIffReady(w, home, rs[0].0, rs[0].1, one.id);
      var n := FailureIsFirst(w, home, rs[1..]);
      assert forall j :: 0 < j < |rs| ==> rs[j] == rs[1..][j - 1];
      assert IsReady(w, home, rs[0].0, rs[0].1);
      i := n + 1;
    }
  }

  lemma NotReadyFails(w: World, home: string, s: Spec, k: Kind, r: Reference)
    requires Declared(s, k, r) && !IsReady(w, home, k, r)
    ensures FirstFailure(w, home, AllFollowed(FIELDS, s)).Some?
  {
    hide FirstFailure, AllFollowed, Ready, Declared;
    var rs := AllFollowed(FIELDS, s);
    DeclaredIffFollowed(s, k, r);
    NoFailureMeans(w, home, rs);
    ResolvedIffIsReady(w, home, k, r);
    var i :| 0 <= i < |rs| && rs[i] == (k, r);
    assert !ResolveOne(w, home, rs[i].0, rs[i].1).Resolved?;
  }

  /** When a declared reference is not ready, the error is that of the first such reference, in
      field and list order. The fields before it are resolved, its own list holds the ids found
      before it, and the fields after it are as they were. */
  lemma FailureLeaves(w: World, home: string, s: Spec, k: Kind, r: Reference) returns (i: nat, n: nat)
    requires Declared(s, k, r) && !IsReady(w, home, k, r)
    ensures var resolved := Resolve(w, home, s);
            && resolved.error.Some?
            && FailsFirstAt(w, home, AllFollowed(FIELDS, s), i, resolved.error.value)
            && StopsAt(w, home, FIELDS, s, n)
            && forall j: Kind :: ValuesAt(j, resolved.value)
                 == if j in FIELDS[..n + 1] then Reached(w, home, j, s) else ValuesAt(j, s)
  {
    AllFieldsAreFields(Role);
    NotReadyFails(w, home, s, k, r);
    ResolveMeans(w, home, s);
    i := FailureIsFirst(w, home, AllFollowed(FIELDS, s));
    n := FailureStops(w, home, FIELDS, s);
    FieldsStop(w, home, FIELDS, s, n);
    hide ResolveFields, FirstFailure, AllFollowed, FailsFirstAt, StopsAt, Validate, ValuesAt, Reached;
  }

  // ---- resolving again ----

  lemma ClearedField(s: Spec, kind: Kind)
    ensures RefsAt(kind, Clear(s)) == RefsAt(kind, s)
    ensures ValuesAt(kind, Clear(s)) == if RefsAt(kind, s) != [] then [] else ValuesAt(kind, s)
    ensures EraseValues(Clear(s)) == EraseValues(s)
  {
  }

  lemma EqualRefsFollowEqual(s: Spec, t: Spec)
    requires forall k: Kind :: RefsAt(k, s) == RefsAt(k, t)
    ensures AllFollowed(FIELDS, s) == AllFollowed(FIELDS, t)
  {
    FollowedByRefs(FIELDS, s, t);
  }

  /** After a successful resolution, clearing and resolving again against the same
      API state succeeds and gives the same spec. */
  lemma ResolveAfterClear(w: World, home: string, s: Spec)
    requires Resolve(w, home, s).error.None?
    ensures var r := Resolve(w, home, s);
            var again := Resolve(w, home, Clear(r.value));
            again.error.None? && again.has == r.has && Settled(again.value) == Settled(r.value)
  {
    hide Resolve, Clear, RefsAt, ValuesAt, EraseValues, Settled, Validate, AllFollowed, FirstFailure, Ids;
    var r := Resolve(w, home, s);
    var c := Clear(r.value);
    ResolveMeans(w, home, s);
    ResolveMeans(w, home, c);
    ClearIsIdempotent(r.value);
    ValidMeans(s);
    forall k: Kind
      ensures RefsAt(k, c) == RefsAt(k, s)
      ensures ValuesAt(k, c) == if RefsAt(k, s) != [] then [] else ValuesAt(k, r.value)
    {
      ClearedField(r.value, k);
    }
    EqualRefsFollowEqual(c, s);
    var again := Resolve(w, home, c);
    ClearedField(r.value, Role);
    forall k: Kind
      ensures ValuesAt(k, again.value) == ValuesAt(k, r.value)
    {
      assert ValuesAt(k, again.value) == Landed(w, home, k, c);
      assert ValuesAt(k, r.value) == Landed(w, home, k, s);
    }
    ValuesAndRestDetermineSpec(again.value, r.value);
  }

  /** Without the clearing, resolving again fails exactly when there was something to resolve. */
  lemma ResolveWithoutClear(w: World, home: string, s: Spec)
    requires Resolve(w, home, s).error.None?
    ensures var r := Resolve(w, home, s);
            Resolve(w, home, r.value).error.Some? <==> r.has
  {
    var r := Resolve(w, home, s);
    ResolveMeans(w, home, s);
    ResolveMeans(w, home, r.value);
    EqualRefsFollowEqual(r.value, s);
    ValidMeans(s);
    ValidMeans(r.value);
    SuccessIffAllReady(w, home, s);
    if r.has {
      var k, ref :| Declared(s, k, ref);
      FollowedElements(k, RefsAt(k, s));
      assert (k, ref) in Followed(k, RefsAt(k, s)) by {
        var i :| 0 <= i < |RefsAt(k, s)| && RefsAt(k, s)[i] == Some(RefWrapper(Some(ref)));
      }
      SuccessFillsInOrder(w, home, s, k);
      assert RefsAt(k, r.value) != [] && ValuesAt(k, r.value) != [];
    } else {
      forall k: Kind
        ensures RefsAt(k, r.value) == [] || ValuesAt(k, r.value) == []
      {
        var rs := Followed(k, RefsAt(k, s));
        FollowedElements(k, RefsAt(k, s));
        if rs != [] {
          assert (k, rs[0].1) == rs[0];
          assert Declared(s, k, rs[0].1);
        }
      }
    }
  }

  // ---- restoring references ----

  function EraseNetworkRefs(n: NetworkConfiguration): NetworkConfiguration {
    n.(securityGroupRefs := None, subnetRefs := None)
  }

  function EraseTemplateRefs(t: InstanceLaunchTemplate): InstanceLaunchTemplate {
    t.(profileRef := None, network := if t.network.Some? then Some(EraseNetworkRefs(t.network.value)) else None)
  }

  function EraseMipRefs(m: ManagedInstancesProvider): ManagedInstancesProvider {
    m.(roleRef := None, template := if m.template.Some? then Some(EraseTemplateRefs(m.template.value)) else None)
  }

  /** The spec without its nested references; ClusterRef, which is not nested, stays. */
  function EraseRefs(s: Spec): Spec {
    s.(asgp := if s.asgp.Some? then Some(s.asgp.value.(ref := None)) else None,
       mip := if s.mip.Some? then Some(EraseMipRefs(s.mip.value)) else None)
  }

  /** The spec with every container of a nested reference present, empty where it was missing. */
  function Complete(s: Spec): Spec {
    var m := OrElse(s.mip, EMPTY_MIP);
    var t := OrElse(m.template, EMPTY_TEMPLATE);
    var n := OrElse(t.network, EMPTY_NETWORK);
    s.(asgp := Some(OrElse(s.asgp, EMPTY_ASGP)),
       mip := Some(m.(template := Some(t.(network := Some(n))))))
  }

  function SettledRefs(s: Spec): Spec {
    if NetworkOf(s).None? then s
    else
      var n := NetworkOf(s).value;
      WithNetwork(s, n.(securityGroupRefs := NilIfEmpty(n.securityGroupRefs), subnetRefs := NilIfEmpty(n.subnetRefs)))
  }

  predicate WantsNetwork(d: Spec) {
    RefsAt(SecurityGroup, d) != [] || RefsAt(Subnet, d) != []
  }

  predicate WantsTemplate(d: Spec) {
    RefsAt(InstanceProfile, d) != [] || WantsNetwork(d)
  }

  predicate WantsMip(d: Spec) {
    RefsAt(Role, d) != [] || WantsTemplate(d)
  }

  /** e is l with the nested references it lacks taken from d: each reference field is l's
      if set, else d's; everything else is l's, or empty inside a container l lacks; and a
      container is there only if l has it or it lies on the way to a reference of d. */
  ghost predicate Restores(d: Spec, l: Spec, e: Spec) {
    && (forall k: Kind :: RefsAt(k, e)
          == if k == Cluster || RefsAt(k, l) != [] then RefsAt(k, l) else RefsAt(k, d))
    && EraseRefs(Complete(e)) == EraseRefs(Complete(l))
    && (e.asgp.Some? <==> l.asgp.Some? || RefsAt(AutoScalingGroup, d) != [])
    && (e.mip.Some? <==> l.mip.Some? || WantsMip(d))
    && (TemplateOf(e).Some? <==> TemplateOf(l).Some? || WantsTemplate(d))
    && (NetworkOf(e).Some? <==> NetworkOf(l).Some? || WantsNetwork(d))
  }

  lemma EnsurePicksRefs(d: Spec, l: Spec, kind: Kind)
    ensures RefsAt(kind, Ensure(d, l))
         == if kind == Cluster || RefsAt(kind, l) != [] then RefsAt(kind, l) else RefsAt(kind, d)
  {
  }

  lemma EnsureKeepsRest(d: Spec, l: Spec)
    ensures EraseRefs(Complete(Ensure(d, l))) == EraseRefs(Complete(l))
  {
  }

  lemma EnsureRestores(d: Spec, l: Spec)
    ensures Restores(d, l, Ensure(d, l))
  {
    forall k: Kind
      ensures RefsAt(k, Ensure(d, l)) == if k == Cluster || RefsAt(k, l) != [] then RefsAt(k, l) else RefsAt(k, d)
    {
      EnsurePicksRefs(d, l, k);
    }
    EnsureKeepsRest(d, l);
    assert WantsNetwork(d) <==> NetworkDeclares(NetworkOf(d));
    assert WantsTemplate(d) <==> TemplateDeclares(TemplateOf(d));
    assert WantsMip(d) <==> MipDeclares(d.mip);
  }

  lemma RefsAndRestDetermineSpec(s: Spec, t: Spec)
    requires EraseRefs(Complete(s)) == EraseRefs(Complete(t))
    requires forall k: Kind :: RefsAt(k, s) == RefsAt(k, t)
    requires s.asgp.Some? <==> t.asgp.Some?
    requires s.mip.Some? <==> t.mip.Some?
    requires TemplateOf(s).Some? <==> TemplateOf(t).Some?
    requires NetworkOf(s).Some? <==> NetworkOf(t).Some?
    ensures SettledRefs(s) == SettledRefs(t)
  {
    assert RefsAt(AutoScalingGroup, s) == RefsAt(AutoScalingGroup, t);
    assert RefsAt(Cluster, s) == RefsAt(Cluster, t);
    assert RefsAt(Role, s) == RefsAt(Role, t);
    assert RefsAt(InstanceProfile, s) == RefsAt(InstanceProfile, t);
    assert RefsAt(SecurityGroup, s) == RefsAt(SecurityGroup, t);
    assert RefsAt(Subnet, s) == RefsAt(Subnet, t);
    var s', t' := EraseRefs(Complete(s)), EraseRefs(Complete(t));
    assert s.name == s'.name && t.name == t'.name;
    if s.mip.Some? {
      assert s.mip.value.roleArn == s'.mip.value.roleArn;
      assert t.mip.value.roleArn == t'.mip.value.roleArn;
      if TemplateOf(s).Some? {
        assert TemplateOf(s).value.profileArn == TemplateOf(s').value.profileArn;
        assert TemplateOf(t).value.profileArn == TemplateOf(t').value.profileArn;
      }
    }
  }

  /** What Restores says leaves only nil against empty reference lists open. */
  lemma RestoringIsUnique(d: Spec, l: Spec, e: Spec)
    requires Restores(d, l, e)
    ensures SettledRefs(e) == SettledRefs(Ensure(d, l))
  {
    EnsureRestores(d, l);
    RefsAndRestDetermineSpec(e, Ensure(d, l));
  }

  /** Nothing is written exactly when latest lacks none of the nested references of desired. */
  lemma EnsureUnchangedIff(d: Spec, l: Spec)
    ensures Ensure(d, l) == l
       <==> forall k: Kind :: k == Cluster || RefsAt(k, d) == [] || RefsAt(k, l) != []
  {
    EnsureRestores(d, l);
    if forall k: Kind :: k == Cluster || RefsAt(k, d) == [] || RefsAt(k, l) != [] {
      assert RefsAt(AutoScalingGroup, d) == [] || RefsAt(AutoScalingGroup, l) != [];
      assert RefsAt(Role, d) == [] || RefsAt(Role, l) != [];
      assert RefsAt(InstanceProfile, d) == [] || RefsAt(InstanceProfile, l) != [];
      assert RefsAt(SecurityGroup, d) == [] || RefsAt(SecurityGroup, l) != [];
      assert RefsAt(Subnet, d) == [] || RefsAt(Subnet, l) != [];
    }
  }

  lemma EnsureIsIdempotent(d: Spec, l: Spec)
    ensures Ensure(d, Ensure(d, l)) == Ensure(d, l)
  {
  }
}
