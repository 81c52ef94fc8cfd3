/** One pass through the reference pipeline, the payload and the response: what the user declared
    is what comes out again. */
module ReconcileLaws {
  import opened ApiTypes
  import opened Payloads
  import opened PayloadLaws
  import opened ReadLaws
  import opened ReadPath
  import opened References
  import opened ReferenceLaws
  import opened Delta
  import opened DeltaLaws
  import opened SettleLaws
  import opened UpdatePayloads

  // ---- the parts that determine a spec ----

  /** Nil and empty lists of references and of resolved ids are the same. */
  function SettledLists(s: Spec): Spec {
    Settled(SettledRefs(s))
  }

  lemma SettlingRefsKeepsValues(s: Spec)
    ensures SettledRefs(EraseValues(s)) == EraseValues(SettledRefs(s))
    ensures forall k: Kind :: ValuesAt(k, SettledRefs(s)) == ValuesAt(k, s)
    ensures forall k: Kind :: RefsAt(k, EraseValues(s)) == RefsAt(k, s)
  {
  }

  lemma RefsDetermineSpec(s: Spec, t: Spec)
    requires forall k: Kind :: RefsAt(k, s) == RefsAt(k, t)
    requires EraseRefs(s) == EraseRefs(t)
    ensures SettledRefs(s) == SettledRefs(t)
  {
    assert RefsAt(AutoScalingGroup, s) == RefsAt(AutoScalingGroup, t);
    assert RefsAt(Cluster, s) == RefsAt(Cluster, t);
    assert RefsAt(Role, s) == RefsAt(Role, t);
    assert RefsAt(InstanceProfile, s) == RefsAt(InstanceProfile, t);
    assert RefsAt(SecurityGroup, s) == RefsAt(SecurityGroup, t);
    assert RefsAt(Subnet, s) == RefsAt(Subnet, t);
    assert EraseRefs(s).name == s.name && EraseRefs(t).name == t.name;
    if s.mip.Some? {
      assert EraseRefs(s).mip.value.roleArn == s.mip.value.roleArn;
    }
  }

  lemma PartsDetermineSpec(s: Spec, t: Spec)
    requires forall k: Kind :: RefsAt(k, s) == RefsAt(k, t)
    requires forall k: Kind :: ValuesAt(k, s) == ValuesAt(k, t)
    requires EraseRefs(EraseValues(s)) == EraseRefs(EraseValues(t))
    ensures SettledLists(s) == SettledLists(t)
  {
    hide EraseValues, EraseRefs, SettledRefs, Settled, RefsAt, ValuesAt;
    SettlingRefsKeepsValues(s);
    SettlingRefsKeepsValues(t);
    RefsDetermineSpec(EraseValues(s), EraseValues(t));
    ValuesAndRestDetermineSpec(SettledRefs(s), SettledRefs(t));
  }

  // ---- the normal form and the references ----

  lemma NormalAndRefs(s: Spec)
    ensures EraseRefs(Normal(s)) == Normal(s)
    ensures Normal(EraseRefs(s)) == Normal(s)
    ensures RefsAt(Cluster, Normal(s)) == RefsAt(Cluster, s)
    ensures forall k: Kind :: k != Cluster ==> RefsAt(k, Normal(s)) == []
    ensures Normal(s).asgp.Some? <==> s.asgp.Some?
    ensures Normal(s).mip.Some? <==> s.mip.Some?
    ensures TemplateOf(Normal(s)).Some? <==> TemplateOf(s).Some?
    ensures NetworkOf(Normal(s)).Some? <==> NetworkOf(s).Some?
  {
  }

  /** Restoring the references of s onto its normal form changes nothing but references. */
  lemma EnsureOnNormal(s: Spec)
    ensures var e := Ensure(s, Normal(s));
            && EraseRefs(e) == Normal(s)
            && forall k: Kind :: RefsAt(k, e) == RefsAt(k, s)
  {
    var n := Normal(s);
    var e := Ensure(s, n);
    NormalAndRefs(s);
    EnsureRestores(s, n);
    hide Normal, Ensure;
    forall k: Kind
      ensures RefsAt(k, e) == RefsAt(k, s)
    {
      assert k == Cluster || RefsAt(k, n) == [];
    }
    SameWithoutCompletion(e, n);
  }

  lemma SameWithoutCompletion(e: Spec, n: Spec)
    requires EraseRefs(Complete(e)) == EraseRefs(Complete(n))
    requires e.asgp.Some? <==> n.asgp.Some?
    requires e.mip.Some? <==> n.mip.Some?
    requires TemplateOf(e).Some? <==> TemplateOf(n).Some?
    requires NetworkOf(e).Some? <==> NetworkOf(n).Some?
    ensures EraseRefs(e) == EraseRefs(n)
  {
  }

  lemma NormalOfErased(s: Spec)
    ensures EraseValues(Normal(s)) == EraseValues(Normal(EraseValues(s)))
  {
  }

  lemma NormalValuesFollowValues(s: Spec, t: Spec, k: Kind)
    requires ValuesAt(k, s) == ValuesAt(k, t)
    ensures ValuesAt(k, Normal(s)) == ValuesAt(k, Normal(t))
  {
  }

  lemma ErasedRefsKeepValues(s: Spec, k: Kind)
    ensures ValuesAt(k, EraseRefs(s)) == ValuesAt(k, s)
  {
  }

  lemma ErasuresCommute(s: Spec)
    ensures EraseRefs(EraseValues(s)) == EraseValues(EraseRefs(s))
  {
  }

  /** What resolving, a rebuild from the service's answer, restoring and clearing make of d: the
      references are the declared ones, no value stands beside a reference, and everything else is
      the normal form of what was declared. */
  lemma DeclaredSpecIsKept(w: World, home: string, d: Spec)
    requires Resolve(w, home, d).error.None?
    ensures var s := Resolve(w, home, d).value;
            var out := Clear(Ensure(s, Normal(s)));
            && (forall k: Kind :: RefsAt(k, out) == RefsAt(k, d))
            && (forall k: Kind :: ValuesAt(k, out) == if RefsAt(k, d) != [] then [] else ValuesAt(k, Normal(d)))
            && EraseRefs(EraseValues(out)) == EraseValues(Normal(d))
  {
    var s := Resolve(w, home, d).value;
    ResolveMeans(w, home, d);
    hide Resolve;
    var x := Ensure(s, Normal(s));
    EnsureOnNormal(s);
    NormalOfErased(s);
    NormalOfErased(d);
    ErasuresCommute(x);
    hide Normal, Ensure, Clear, EraseRefs, EraseValues;
    forall k: Kind
      ensures RefsAt(k, Clear(x)) == RefsAt(k, d)
      ensures ValuesAt(k, Clear(x)) == if RefsAt(k, d) != [] then [] else ValuesAt(k, Normal(d))
    {
      ClearedField(x, k);
      if RefsAt(k, d) == [] {
        ErasedRefsKeepValues(x, k);
        NormalValuesFollowValues(s, d, k);
      }
    }
    ClearedField(x, Role);
  }

  /** A spec that is normal but for its references comes back as it was declared, whether the
      service's answer came from a create call or from a later read. */
  lemma DeclaredSpecComesBack(w: World, home: string, d: Spec)
    requires Resolve(w, home, d).error.None?
    requires Normal(d) == EraseRefs(d)
    ensures var s := Resolve(w, home, d).value;
            SettledLists(Clear(Ensure(s, Normal(s)))) == SettledLists(d)
  {
    var s := Resolve(w, home, d).value;
    var out := Clear(Ensure(s, Normal(s)));
    DeclaredSpecIsKept(w, home, d);
    ResolveMeans(w, home, d);
    hide Resolve, Ensure, Clear, Normal, EraseRefs, EraseValues, SettledLists;
    ValidMeans(d);
    ErasuresCommute(d);
    forall k: Kind
      ensures ValuesAt(k, out) == ValuesAt(k, d)
    {
      ErasedRefsKeepValues(d, k);
    }
    PartsDetermineSpec(out, d);
  }

  /** Both answers rebuild the normal form, when they echo the payload. */
  lemma EchoRebuildsNormal(id: Identity, desired: CapacityProvider, respond: CreateInput -> CreateResponse,
                           e: SdkCapacityProvider, es: seq<SdkCapacityProvider>)
    requires CreatePayload(desired.spec).Ok? && Echoes(e, CreatePayload(desired.spec).value)
    ensures respond(CreatePayload(desired.spec).value) == Echo(Some(e)) ==>
              SdkCreate(id, desired, respond).Created?
              && SdkCreate(id, desired, respond).created.spec == Normal(desired.spec)
    ensures var m := FirstMatch(desired.spec.name, es);
            SdkFind(id, desired, Listed(es)).Found? && m.Some? && es[m.value] == e ==>
              SdkFind(id, desired, Listed(es)).latest.spec == Normal(desired.spec)
  {
    CreateRoundTrip(desired.spec, e);
    var read := SdkFind(id, desired, Listed(es));
    if read.Found? {
      FoundMeans(id, desired, es, read.latest);
    }
    hide CreatePayload, Normal, SdkFind, AsgpFromSdk, MipFromSdk, ListFromSdk;
  }

  // ---- no update after it ----

  lemma NormalIffParts(s: Spec)
    ensures Normal(s) == EraseRefs(s)
       <==> && EraseValues(Normal(s)) == EraseValues(EraseRefs(s))
            && (forall v :: v in ValuesAt(SecurityGroup, s) ==> v.Some?)
            && (forall v :: v in ValuesAt(Subnet, s) ==> v.Some?)
  {
    hide NormalList, NormalRequirements, NormalEnum;
    var n, r := Normal(s), EraseRefs(s);
    if NetworkOf(s).Some? {
      NormalListIff(NetworkOf(s).value.securityGroups);
      NormalListIff(NetworkOf(s).value.subnets);
      assert NetworkOf(n) == NormalNetwork(NetworkOf(s));
      assert NetworkOf(r).value == EraseNetworkRefs(NetworkOf(s).value);
    }
    if EraseValues(n) == EraseValues(r) && NetworkOf(n) == NetworkOf(r) {
      EqualByParts(n, r);
    }
  }

  lemma NormalListIff(l: StringPList)
    ensures NormalList(l) == l <==> forall v :: v in Elements(l) ==> v.Some?
  {
    NormalListMeans(l);
    if NormalList(l) == l && l.Some? {
      assert forall i :: 0 <= i < |l.value| ==> NormalList(l).value[i].Some?;
    }
  }

  lemma EqualByParts(s: Spec, t: Spec)
    requires EraseValues(s) == EraseValues(t) && NetworkOf(s) == NetworkOf(t)
    requires s.cluster == t.cluster
    requires s.asgp.Some? && t.asgp.Some? ==> s.asgp.value.arn == t.asgp.value.arn
    requires s.mip.Some? && t.mip.Some? ==> s.mip.value.roleArn == t.mip.value.roleArn
    requires TemplateOf(s).Some? && TemplateOf(t).Some? ==>
               TemplateOf(s).value.profileArn == TemplateOf(t).value.profileArn
    ensures s == t
  {
  }

  /** Resolving leaves a spec as normal as it was declared. */
  lemma ResolvedIsNormal(w: World, home: string, d: Spec)
    requires Resolve(w, home, d).error.None? && Normal(d) == EraseRefs(d)
    ensures var s := Resolve(w, home, d).value; Normal(s) == EraseRefs(s)
  {
    var s := Resolve(w, home, d).value;
    ResolveMeans(w, home, d);
    SuccessFillsInOrder(w, home, d, SecurityGroup);
    SuccessFillsInOrder(w, home, d, Subnet);
    hide Resolve, Normal, EraseRefs, EraseValues;
    NormalIffParts(d);
    NormalIffParts(s);
    NormalOfErased(s);
    NormalOfErased(d);
    ErasuresCommute(s);
    ErasuresCommute(d);
  }

  /** Restoring the references leaves the delta as it was. */
  lemma RestoredSettlesLikewise(eq: SliceEq, s: Spec)
    requires NoNil(s.tags)
    ensures DeltaOf(eq, Some(s), Some(Ensure(s, Normal(s)))) == DeltaOf(eq, Some(s), Some(Normal(s)))
  {
    NormalAndRefs(s);
    EnsureOnNormal(s);
    EnsureRestores(s, Normal(s));
    EnsureLeavesDelta(eq, s, s, Normal(s));
  }

  /** Against the spec that was sent, the one that came back has nothing to update, with its
      references restored or not; and clearing the restored one gives the declared spec. */
  ghost predicate Settles(eq: SliceEq, sent: Spec, back: Spec, declared: Spec) {
    && NoNil(sent.tags) && NoNil(back.tags) && NoNil(Ensure(sent, back).tags)
    && DeltaOf(eq, Some(sent), Some(back)) == []
    && DeltaOf(eq, Some(sent), Some(Ensure(sent, back))) == []
    && SettledLists(Clear(Ensure(sent, back))) == SettledLists(declared)
  }

  lemma NormalOfResolvedSettles(eq: SliceEq, w: World, home: string, d: Spec)
    requires Reflexive(eq)
    requires Resolve(w, home, d).error.None? && Normal(d) == EraseRefs(d)
    requires NoNil(Resolve(w, home, d).value.tags)
    ensures var s := Resolve(w, home, d).value; Settles(eq, s, Normal(s), d)
  {
    var s := Resolve(w, home, d).value;
    DeclaredSpecComesBack(w, home, d);
    ResolvedIsNormal(w, home, d);
    NormalSettlesIff(eq, s);
    RestoredSettlesLikewise(eq, s);
    hide Resolve, DeltaOf, SettledLists, Clear, EraseRefs;
  }

  /** The whole pass, from declared spec to declared spec: after the resolved spec was created or
      read back no update follows, and restoring and clearing give the declared spec again. */
  lemma PassKeepsDeclaredSpec(eq: SliceEq, id: Identity, w: World, d: CapacityProvider,
                              respond: CreateInput -> CreateResponse, e: SdkCapacityProvider,
                              es: seq<SdkCapacityProvider>)
    requires Reflexive(eq)
    requires Resolve(w, d.namespace, d.spec).error.None?
    requires Normal(d.spec) == EraseRefs(d.spec)
    requires var s := Resolve(w, d.namespace, d.spec).value;
             CreatePayload(s).Ok? && Echoes(e, CreatePayload(s).value)
    ensures var desired := d.(spec := Resolve(w, d.namespace, d.spec).value);
            respond(CreatePayload(desired.spec).value) == Echo(Some(e)) ==>
              var c := SdkCreate(id, desired, respond);
              c.Created? && Settles(eq, desired.spec, c.created.spec, d.spec)
    ensures var desired := d.(spec := Resolve(w, d.namespace, d.spec).value);
            var read := SdkFind(id, desired, Listed(es));
            var m := FirstMatch(desired.spec.name, es);
            read.Found? && m.Some? && es[m.value] == e ==>
              Settles(eq, desired.spec, read.latest.spec, d.spec)
  {
    var desired := d.(spec := Resolve(w, d.namespace, d.spec).value);
    SentTagsHaveNoNil(desired.spec);
    NormalOfResolvedSettles(eq, w, d.namespace, d.spec);
    EchoRebuildsNormal(id, desired, respond, e, es);
    hide CreatePayload, Normal, SdkFind, SdkCreate, Resolve, Settles, EraseRefs;
  }

  lemma SentTagsHaveNoNil(s: Spec)
    requires CreatePayload(s).Ok?
    ensures NoNil(s.tags)
  {
  }

  // ---- after an update ----

  lemma ClearAfterMerge(s: Spec, e: SdkCapacityProvider)
    ensures var u := s.(cluster := e.cluster, name := e.name, tags := ListFromSdk(e.tags));
            && Ensure(s, u) == u
            && Clear(u) == Clear(s).(cluster := if s.clusterRef.Some? then None else e.cluster,
                                     name := e.name, tags := ListFromSdk(e.tags))
  {
    var u := s.(cluster := e.cluster, name := e.name, tags := ListFromSdk(e.tags));
    EnsureUnchangedIff(s, u);
  }

  lemma SettledButFor(s: Spec, t: Spec, cluster: Option<string>, name: Option<string>, tags: TagList)
    requires Settled(s) == Settled(t)
    ensures Settled(s.(cluster := cluster, name := name, tags := tags))
         == Settled(t.(cluster := cluster, name := name, tags := tags))
    ensures s.clusterRef == t.clusterRef
  {
  }

  lemma SettledComesBackIff(d: Spec, cluster: Option<string>, name: Option<string>, tags: TagList)
    ensures Settled(d.(cluster := cluster, name := name, tags := tags)) == Settled(d)
       <==> cluster == d.cluster && name == d.name && tags == d.tags
  {
    assert Settled(d.(cluster := cluster, name := name, tags := tags)).cluster == cluster;
  }

  /** After an update both providers are the declared ones, whatever the service answers; the
      declared spec comes back exactly when the answer has its cluster, name and tags. Restoring
      has nothing to do, for an update keeps the references it was given. */
  lemma UpdateKeepsDeclaredProviders(id: Identity, w: World, d: CapacityProvider,
                                     respond: UpdateInput -> UpdateResponse, e: SdkCapacityProvider)
    requires Resolve(w, d.namespace, d.spec).error.None?
    requires var s := Resolve(w, d.namespace, d.spec).value;
             UpdatePayload(s).Ok? && respond(UpdatePayload(s).value) == Answer(Some(e))
    ensures var desired := d.(spec := Resolve(w, d.namespace, d.spec).value);
            var u := SdkUpdate(id, desired, respond);
            && u.UpdateDone?
            && Ensure(desired.spec, u.updated.spec) == u.updated.spec
            && Settled(Clear(u.updated.spec))
               == Settled(d.spec.(cluster := if d.spec.clusterRef.Some? then None else e.cluster,
                                  name := e.name, tags := ListFromSdk(e.tags)))
            && (Settled(Clear(u.updated.spec)) == Settled(d.spec)
                <==> (d.spec.clusterRef.Some? || e.cluster == d.spec.cluster)
                     && e.name == d.spec.name && ListFromSdk(e.tags) == d.spec.tags)
  {
    var s := Resolve(w, d.namespace, d.spec).value;
    var cluster, tags := if d.spec.clusterRef.Some? then None else e.cluster, ListFromSdk(e.tags);
    ResolveMeans(w, d.namespace, d.spec);
    ClearUndoesResolve(w, d.namespace, d.spec);
    ValidIffNothingToClear(d.spec);
    ClearAfterMerge(s, e);
    assert RefsAt(Cluster, s) == RefsAt(Cluster, d.spec);
    assert d.spec.clusterRef.Some? ==> d.spec.cluster.None?;
    SettledButFor(Clear(d.spec), d.spec, cluster, e.name, tags);
    SettledComesBackIff(d.spec, cluster, e.name, tags);
    hide Resolve, Clear, Settled, Ensure, UpdatePayload;
  }
}
