/** When a create or read leaves nothing to update: the delta between a spec and what comes back
    of it is empty exactly when the spec is normal but for its references. */
module SettleLaws {
  import opened ApiTypes
  import opened Payloads
  import opened PayloadLaws
  import opened ReadPath
  import opened ReferenceLaws
  import opened Delta
  import opened DeltaLaws

  /** The comparison of lists tells a nil string from an empty one. */
  ghost predicate TellsNil(eq: SliceEq) {
    forall l :: ListsMatch(eq, l, NormalList(l)) ==> NormalList(l) == l
  }

  lemma SameListMatches(eq: SliceEq, l: StringPList)
    requires Reflexive(eq)
    ensures ListsMatch(eq, l, l)
    ensures TellsNil(eq) && ListsMatch(eq, l, NormalList(l)) ==> NormalList(l) == l
  {
  }

  lemma RequirementsSettle(eq: SliceEq, q: InstanceRequirements)
    requires Reflexive(eq)
    ensures var n := NormalRequirements(Some(q)).value;
            && (n == q ==> RequirementsMatch(eq, q, n))
            && (TellsNil(eq) && RequirementsMatch(eq, q, n) ==> n == q)
  {
    hide ListsMatch, NormalList, TellsNil, Reflexive;
    SameListMatches(eq, q.acceleratorManufacturers);
    SameListMatches(eq, q.acceleratorNames);
    SameListMatches(eq, q.acceleratorTypes);
    SameListMatches(eq, q.allowedInstanceTypes);
    SameListMatches(eq, q.cpuManufacturers);
    SameListMatches(eq, q.excludedInstanceTypes);
    SameListMatches(eq, q.instanceGenerations);
    SameListMatches(eq, q.localStorageTypes);
    var n := NormalRequirements(Some(q)).value;
    if BlankLists(q) == BlankLists(n) {
      assert q.bareMetal == BlankLists(q).bareMetal == n.bareMetal;
      assert q.burstablePerformance == BlankLists(q).burstablePerformance == n.burstablePerformance;
      assert q.localStorage == BlankLists(q).localStorage == n.localStorage;
    }
  }

  lemma TemplateSettles(eq: SliceEq, t: InstanceLaunchTemplate)
    requires Reflexive(eq)
    ensures var n := NormalTemplate(Some(t)).value;
            && (n == EraseTemplateRefs(t) ==> TemplateMatch(eq, t, n))
            && (TellsNil(eq) && TemplateMatch(eq, t, n) ==> n == EraseTemplateRefs(t))
  {
    hide ListsMatch, NormalList, TellsNil, Reflexive, RequirementsMatch, NormalEnum;
    if t.requirements.Some? {
      RequirementsSettle(eq, t.requirements.value);
    }
    hide NormalRequirements;
    if t.network.Some? {
      SameListMatches(eq, t.network.value.securityGroups);
      SameListMatches(eq, t.network.value.subnets);
    }
    var n := NormalTemplate(Some(t)).value;
    if TemplateMatch(eq, t, n) {
      var x, y := t.(profileRef := None, requirements := None, network := None),
          n.(profileRef := None, requirements := None, network := None);
      assert x.capacityOptionType == y.capacityOptionType && x.capacityReservations == y.capacityReservations;
      assert x.localStorage == y.localStorage && x.monitoring == y.monitoring;
    }
  }

  lemma MipSettles(eq: SliceEq, m: ManagedInstancesProvider)
    requires Reflexive(eq)
    ensures var n := NormalMip(Some(m)).value;
            && (n == EraseMipRefs(m) ==> MipMatch(eq, m, n))
            && (TellsNil(eq) && MipMatch(eq, m, n) ==> n == EraseMipRefs(m))
  {
    hide TemplateMatch, TellsNil, Reflexive, NormalEnum;
    if m.template.Some? {
      TemplateSettles(eq, m.template.value);
    }
    hide NormalTemplate, EraseTemplateRefs;
    var n := NormalMip(Some(m)).value;
    if MipMatch(eq, m, n) {
      var x, y := m.(roleRef := None, template := None), n.(roleRef := None, template := None);
      assert x.autoRepair == y.autoRepair && x.propagateTags == y.propagateTags;
    }
  }

  lemma AsgpSettles(a: AutoScalingGroupProvider)
    ensures var n := NormalAsgp(Some(a)).value; n == a.(ref := None) <==> AsgpMatch(a, n)
  {
  }

  /** Between a spec and its normal form nothing is reported when the two differ in nested
      references only, and in no other case if the comparison of lists tells nil from "". */
  lemma NormalSettlesIff(eq: SliceEq, s: Spec)
    requires Reflexive(eq) && NoNil(s.tags)
    ensures Normal(s) == EraseRefs(s) ==> DeltaOf(eq, Some(s), Some(Normal(s))) == []
    ensures TellsNil(eq) && DeltaOf(eq, Some(s), Some(Normal(s))) == [] ==> Normal(s) == EraseRefs(s)
  {
    DeltaEmptyIff(eq, s, Normal(s));
    if s.mip.Some? {
      MipSettles(eq, s.mip.value);
    }
    if s.asgp.Some? {
      AsgpSettles(s.asgp.value);
    }
    hide DeltaOf, MipMatch, AsgpMatch, NormalMip, NormalAsgp, EraseMipRefs, TellsNil, Reflexive;
    var n := Normal(s);
    assert n.(asgp := None, mip := None, tags := None) == s.(asgp := None, mip := None, tags := None);
  }

  /** A create whose payload is echoed leaves the normal form of the spec, so that no update
      follows if the spec was normal but for its nested references, and otherwise one follows,
      if the comparison of lists tells nil from "". */
  lemma EchoedCreateSettlesIff(eq: SliceEq, id: Identity, desired: CapacityProvider,
                               respond: CreateInput -> CreateResponse, e: SdkCapacityProvider)
    requires Reflexive(eq)
    requires CreatePayload(desired.spec).Ok?
    requires respond(CreatePayload(desired.spec).value) == Echo(Some(e))
    requires Echoes(e, CreatePayload(desired.spec).value)
    ensures var c := SdkCreate(id, desired, respond);
            && c.Created?
            && c.created.spec == Normal(desired.spec)
            && NoNil(c.created.spec.tags) && NoNil(desired.spec.tags)
            && var delta := DeltaOf(eq, Some(desired.spec), Some(c.created.spec));
               && (Normal(desired.spec) == EraseRefs(desired.spec) ==> delta == [])
               && (TellsNil(eq) && delta == [] ==> Normal(desired.spec) == EraseRefs(desired.spec))
  {
    var c := SdkCreate(id, desired, respond);
    CreateRoundTrip(desired.spec, e);
    assert c.created.spec == SpecFromSdk(desired.spec, e);
    NormalSettlesIff(eq, desired.spec);
    hide DeltaOf, Normal, EraseRefs, TellsNil;
  }
}
