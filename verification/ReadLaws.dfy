/** What the read path guarantees: when the search loop finds what a plain search would, what a
    successful read consists of, and that declared references survive it. */
module ReadLaws {
  import opened ApiTypes
  import opened Payloads
  import opened ReadPath
  import opened UpdatePayloads
  import opened References
  import opened ReferenceLaws

  // ---- the search loop against a plain search ----

  predicate IsMatch(name: Option<string>, e: SdkCapacityProvider) {
    name.None? || e.name.None? || e.name == name
  }

  /** The position of the first element whose name is nil or the name of the spec. */
  function FirstMatch(name: Option<string>, es: seq<SdkCapacityProvider>): (m: Option<nat>)
    ensures m.None? <==> forall i :: 0 <= i < |es| ==> !IsMatch(name, es[i])
    ensures m.Some? ==> m.value < |es| && IsMatch(name, es[m.value])
    ensures m.Some? ==> forall i :: 0 <= i < m.value ==> !IsMatch(name, es[i])
  {
    if es == [] then None
    else if IsMatch(name, es[0]) then Some(0)
    else
      var rest := FirstMatch(name, es[1..]);
      assert forall i :: 0 < i < |es| ==> es[i] == es[1..][i - 1];
      if rest.None? then None else Some(rest.value + 1)
  }

  /** Find the element, then merge it into the untouched resource. */
  function PlainSearch(ko: CapacityProvider, es: seq<SdkCapacityProvider>): Option<CapacityProvider> {
    var m := FirstMatch(ko.spec.name, es);
    if m.None? then None else Some(MergeRest(MergeFirst(ko, es[m.value]), es[m.value]))
  }

  function PlainFind(id: Identity, r: CapacityProvider, response: Response): Read {
    ReadWith(id, r, response, PlainSearch(r, Listing(response)))
  }

  function ArnOf(s: Status): Option<string> {
    if s.metadata.None? then None else s.metadata.value.arn
  }

  /** The ARN after the given elements have been merged and passed over. */
  function ArnAfter(arn: Option<string>, es: seq<SdkCapacityProvider>): (last: Option<string>)
    ensures last.None? ==> arn.None?
    decreases |es|
  {
    if es == [] then arn else ArnAfter(if es[0].arn.Some? then es[0].arn else arn, es[1..])
  }

  lemma ArnSetTwice(s: Status, first: Option<string>, last: Option<string>)
    requires last.None? ==> first.None?
    ensures ArnOf(WithArn(s, first)) == if first.Some? then first else ArnOf(s)
    ensures WithArn(WithArn(s, first), last) == WithArn(s, last)
    ensures WithArn(s, ArnOf(s)) == s
  {
  }

  /** What the loop makes of a resource: the first match merged into it, but with the ARN that
      the elements before the match have left behind. */
  lemma {:induction false} ScanMeans(ko: CapacityProvider, es: seq<SdkCapacityProvider>)
    ensures Scan(ko, es).Some? <==> FirstMatch(ko.spec.name, es).Some?
    ensures var m := FirstMatch(ko.spec.name, es);
            m.Some? ==>
              var arn := ArnAfter(ArnOf(ko.status), es[..m.value]);
              var before := ko.(status := WithArn(ko.status, arn));
              Scan(ko, es) == Some(MergeRest(MergeFirst(before, es[m.value]), es[m.value]))
    decreases |es|
  {
    hide AsgpFromSdk, MipFromSdk, ListFromSdk;
    if es != [] {
      var m := FirstMatch(ko.spec.name, es);
      if IsMatch(ko.spec.name, es[0]) {
        assert es[..0] == [];
        ArnSetTwice(ko.status, None, None);
      } else {
        var next := MergeFirst(ko, es[0]);
        ScanMeans(next, es[1..]);
        if m.Some? {
          assert es[..m.value][1..] == es[1..][..m.value - 1];
          assert es[m.value] == es[1..][m.value - 1];
          ArnSetTwice(ko.status, es[0].arn, ArnAfter(ArnOf(ko.status), es[..m.value]));
        }
      }
    }
  }

  /** An ARN that an earlier element left behind and the matching one does not replace. */
  predicate ArnLeaks(r: CapacityProvider, es: seq<SdkCapacityProvider>) {
    var m := FirstMatch(r.spec.name, es);
    m.Some? && es[m.value].arn.None? && ArnAfter(ArnOf(r.status), es[..m.value]) != ArnOf(r.status)
  }

  predicate MatchIsInactive(r: CapacityProvider, es: seq<SdkCapacityProvider>) {
    var m := FirstMatch(r.spec.name, es);
    m.Some? && es[m.value].status == "INACTIVE"
  }

  /** sdkFind gives what a plain search gives exactly when the spec has no name, which panics
      either way, or no ARN leaks, or the match is INACTIVE and so is not given back. */
  lemma FindRefinesPlainFind(id: Identity, r: CapacityProvider, es: seq<SdkCapacityProvider>)
    ensures SdkFind(id, r, Listed(es)) == PlainFind(id, r, Listed(es))
       <==> r.spec.name.None? || !ArnLeaks(r, es) || MatchIsInactive(r, es)
  {
    hide AsgpFromSdk, MipFromSdk, ListFromSdk;
    ScanMeans(r, es);
    ArnSetTwice(r.status, None, None);
  }

  /** In particular when the match has an ARN, or when it comes first. */
  lemma MatchWithArnIsFound(id: Identity, r: CapacityProvider, es: seq<SdkCapacityProvider>)
    requires var m := FirstMatch(r.spec.name, es); m.Some? ==> es[m.value].arn.Some? || m.value == 0
    ensures SdkFind(id, r, Listed(es)) == PlainFind(id, r, Listed(es))
  {
    FindRefinesPlainFind(id, r, es);
    if FirstMatch(r.spec.name, es) == Some(0) {
      assert es[..0] == [];
    }
  }

  function Named(name: string, arn: Option<string>): SdkCapacityProvider {
    SdkCapacityProvider(None, arn, None, None, Some(name), "", None, "", "", None)
  }

  /** An answer where the two differ: the provider asked for comes second and without an ARN, and
      gets the one of the provider before it. */
  lemma OtherArnIsTaken(id: Identity)
    ensures var r := CapacityProvider("", Spec(None, None, None, None, Some("x"), None),
                                      Status(None, None, None, None, None, None));
            var es := [Named("y", Some("arn:y")), Named("x", None)];
            && ArnLeaks(r, es) && SdkFind(id, r, Listed(es)) != PlainFind(id, r, Listed(es))
            && SdkFind(id, r, Listed(es)).Found?
            && ArnOf(SdkFind(id, r, Listed(es)).latest.status) == Some("arn:y")
  {
    var r := CapacityProvider("", Spec(None, None, None, None, Some("x"), None),
                              Status(None, None, None, None, None, None));
    var es := [Named("y", Some("arn:y")), Named("x", None)];
    assert es[1..] == [Named("x", None)] && es[..1] == [Named("y", Some("arn:y"))];
    assert "x"[0] != "y"[0];
    assert FirstMatch(r.spec.name, es) == Some(1);
    assert ArnAfter(None, es[..1]) == Some("arn:y");
    FindRefinesPlainFind(id, r, es);
    ScanMeans(r, es);
  }

  /** What sdkFind gives for every response: a panic without a name; not found for the API error
      UNKNOWN, when nothing listed has the name, or when the match is INACTIVE; any other API error
      as it is; and otherwise a resource. */
  lemma FindOutcome(id: Identity, r: CapacityProvider, response: Response)
    ensures var read, m := SdkFind(id, r, response), FirstMatch(r.spec.name, Listing(response));
            && (read == NilDereference <==> r.spec.name.None?)
            && (read == NotFound
                <==> r.spec.name.Some?
                     && match response
                        case ApiError(code, _) => code == Some("UNKNOWN")
                        case Listed(es) => m.None? || es[m.value].status == "INACTIVE")
            && (forall reason ::
                  read == Read.Failed(reason)
                  <==> r.spec.name.Some? && response.ApiError? && response.code != Some("UNKNOWN")
                       && response.reason == reason)
  {
    hide AsgpFromSdk, MipFromSdk, ListFromSdk, MergeFirst, IsMatch;
    if response.Listed? {
      ScanMeans(r, response.elements);
    }
  }

  /** An enum of the service, nil when it is empty. */
  predicate IsText(v: Option<string>, s: string) {
    if s == "" then v.None? else v == Some(s)
  }

  /** The metadata field v after a default was given to it. */
  predicate IsDefaulted(was: Option<string>, default: string, v: Option<string>) {
    if was.Some? then v == was else v == Some(default)
  }

  function MetadataOf(s: Status): ResourceMetadata {
    if s.metadata.Some? then s.metadata.value else ResourceMetadata(None, None, None, None)
  }

  /** The status after an answer: its four status fields, the given ARN, the manager's account,
      region and partition where there was none, and the conditions there were. */
  ghost predicate Reports(id: Identity, was: Status, e: SdkCapacityProvider, arn: Option<string>, s: Status) {
    && IsText(s.status, e.status) && IsText(s.kind, e.kind) && IsText(s.updateStatus, e.updateStatus)
    && s.updateStatusReason == e.updateStatusReason
    && s.metadata.Some? && s.metadata.value.arn == arn
    && IsDefaulted(MetadataOf(was).region, id.region, s.metadata.value.region)
    && IsDefaulted(MetadataOf(was).partition, id.partition, s.metadata.value.partition)
    && IsDefaulted(MetadataOf(was).ownerAccountId, id.account, s.metadata.value.ownerAccountId)
    && s.conditions == Some(Elements(was.conditions))
  }

  lemma MergedReports(id: Identity, ko: CapacityProvider, e: SdkCapacityProvider)
    ensures var v := MergeRest(MergeFirst(ko, e), e);
            && v.namespace == ko.namespace && v.spec == SpecFromSdk(ko.spec, e)
            && Reports(id, ko.status, e, if e.arn.Some? then e.arn else ArnOf(ko.status), WithDefaults(id, v.status))
  {
    hide AsgpFromSdk, MipFromSdk, ListFromSdk;
  }

  /** sdkCreate for every answer: an error of the payload, a failed call and a nil answer end it;
      any other answer gives its spec and its status, with desired's ARN if it has none. */
  lemma CreateOutcome(id: Identity, desired: CapacityProvider, respond: CreateInput -> CreateResponse)
    ensures var c, p := SdkCreate(id, desired, respond), CreatePayload(desired.spec);
            && (forall field :: c == Rejected(field) <==> p == Err(field))
            && (forall reason :: c == CreateFailed(reason) <==> p.Ok? && respond(p.value) == CreateError(reason))
            && (c == CreatePanic <==> p == Panic || (p.Ok? && respond(p.value) == Echo(None)))
            && (c.Created? <==> p.Ok? && respond(p.value).Echo? && respond(p.value).element.Some?)
            && (c.Created? ==>
                  var e := respond(p.value).element.value;
                  && c.created.namespace == desired.namespace
                  && c.created.spec == SpecFromSdk(desired.spec, e)
                  && Reports(id, desired.status, e, if e.arn.Some? then e.arn else ArnOf(desired.status),
                             c.created.status))
  {
    hide CreatePayload, MergeFirst, MergeRest, WithDefaults, Reports, SpecFromSdk;
    var p := CreatePayload(desired.spec);
    if p.Ok? && respond(p.value).Echo? && respond(p.value).element.Some? {
      MergedReports(id, desired, respond(p.value).element.value);
    }
  }

  lemma UpdatedReports(id: Identity, ko: CapacityProvider, e: SdkCapacityProvider)
    ensures var v := MergeUpdate(ko, e);
            && v.namespace == ko.namespace
            && v.spec == ko.spec.(cluster := e.cluster, name := e.name, tags := ListFromSdk(e.tags))
            && Reports(id, ko.status, e, if e.arn.Some? then e.arn else ArnOf(ko.status), WithDefaults(id, v.status))
  {
    hide ListFromSdk;
  }

  /** sdkUpdate likewise; of the spec its answer gives cluster, name and tags. */
  lemma UpdateOutcome(id: Identity, desired: CapacityProvider, respond: UpdateInput -> UpdateResponse)
    ensures var u, p := SdkUpdate(id, desired, respond), UpdatePayload(desired.spec);
            && (forall field :: u == UpdateRejected(field) <==> p == Err(field))
            && (forall reason :: u == UpdateFailed(reason) <==> p.Ok? && respond(p.value) == UpdateError(reason))
            && (u == UpdatePanic <==> p == Panic || (p.Ok? && respond(p.value) == Answer(None)))
            && (u.UpdateDone? <==> p.Ok? && respond(p.value).Answer? && respond(p.value).element.Some?)
            && (u.UpdateDone? ==>
                  var e := respond(p.value).element.value;
                  && u.updated.namespace == desired.namespace
                  && u.updated.spec
                     == desired.spec.(cluster := e.cluster, name := e.name, tags := ListFromSdk(e.tags))
                  && Reports(id, desired.status, e, if e.arn.Some? then e.arn else ArnOf(desired.status),
                             u.updated.status))
  {
    hide UpdatePayload, MergeUpdate, WithDefaults, Reports, ListFromSdk;
    var p := UpdatePayload(desired.spec);
    if p.Ok? && respond(p.value).Answer? && respond(p.value).element.Some? {
      UpdatedReports(id, desired, respond(p.value).element.value);
    }
  }

  /** What a successful read returns: the spec is rebuilt from the match alone, whatever was
      merged before it, and only the ClusterRef is the caller's; the status is the match's, with
      the last ARN up to it. */
  lemma FoundMeans(id: Identity, d: CapacityProvider, es: seq<SdkCapacityProvider>, latest: CapacityProvider)
    requires SdkFind(id, d, Listed(es)) == Found(latest)
    ensures var m := FirstMatch(d.spec.name, es);
            && m.Some?
            && latest.namespace == d.namespace
            && latest.spec == SpecFromSdk(d.spec, es[m.value])
            && (latest.spec.name.None? || latest.spec.name == d.spec.name)
            && latest.status.status != Some("INACTIVE")
            && Reports(id, d.status, es[m.value], ArnAfter(ArnOf(d.status), es[..m.value + 1]), latest.status)
  {
    hide AsgpFromSdk, MipFromSdk, ListFromSdk, SdkFind, WithDefaults;
    FoundIsMerged(id, d, es, latest);
    FindOutcome(id, d, Listed(es));
    var m := FirstMatch(d.spec.name, es).value;
    var arn := ArnAfter(ArnOf(d.status), es[..m]);
    var v := MergeRest(MergeFirst(d.(status := WithArn(d.status, arn)), es[m]), es[m]);
    var before := d.(status := WithArn(d.status, arn));
    MergedReports(id, before, es[m]);
    ArnSetTwice(d.status, arn, arn);
    ArnOfConcat(ArnOf(d.status), es[..m], es[m]);
    assert es[..m + 1] == es[..m] + [es[m]];
  }

  lemma FoundIsMerged(id: Identity, d: CapacityProvider, es: seq<SdkCapacityProvider>, latest: CapacityProvider)
    requires SdkFind(id, d, Listed(es)) == Found(latest)
    ensures var m := FirstMatch(d.spec.name, es);
            && m.Some?
            && es[m.value].status != "INACTIVE"
            && var arn := ArnAfter(ArnOf(d.status), es[..m.value]);
               var v := MergeRest(MergeFirst(d.(status := WithArn(d.status, arn)), es[m.value]), es[m.value]);
               latest == v.(status := WithDefaults(id, v.status))
  {
    hide AsgpFromSdk, MipFromSdk, ListFromSdk, MergeFirst;
    ScanMeans(d, es);
  }

  lemma {:induction false} ArnOfConcat(arn: Option<string>, es: seq<SdkCapacityProvider>, e: SdkCapacityProvider)
    ensures ArnAfter(arn, es + [e]) == if e.arn.Some? then e.arn else ArnAfter(arn, es)
    decreases |es|
  {
    if es == [] {
      assert es + [e] == [e];
      assert [e][1..] == [];
    } else {
      assert (es + [e])[1..] == es[1..] + [e];
      ArnOfConcat(if es[0].arn.Some? then es[0].arn else arn, es[1..], e);
    }
  }

  /** Defaults fill what is missing, overwrite nothing, and once set stay. */
  lemma DefaultsMean(id: Identity, other: Identity, s: Status)
    ensures var t := WithDefaults(id, s);
            && t.metadata.Some? && t.conditions.Some?
            && IsDefaulted(MetadataOf(s).region, id.region, t.metadata.value.region)
            && IsDefaulted(MetadataOf(s).partition, id.partition, t.metadata.value.partition)
            && IsDefaulted(MetadataOf(s).ownerAccountId, id.account, t.metadata.value.ownerAccountId)
            && ArnOf(t) == ArnOf(s)
            && t.conditions == Some(Elements(s.conditions))
            && t.status == s.status && t.kind == s.kind
            && t.updateStatus == s.updateStatus && t.updateStatusReason == s.updateStatusReason
            && WithDefaults(other, t) == t
  {
  }

  lemma RebuiltHasNoRefs(s: Spec, e: SdkCapacityProvider)
    ensures forall k: Kind :: RefsAt(k, SpecFromSdk(s, e)) == if k == Cluster then RefsAt(k, s) else []
  {
  }

  /** Declared references survive a read: after it, EnsureReferences gives back every reference
      of desired and changes nothing else, and clearing then leaves no value beside a reference. */
  lemma ReferencesSurviveRead(id: Identity, d: CapacityProvider, es: seq<SdkCapacityProvider>, latest: CapacityProvider)
    requires SdkFind(id, d, Listed(es)) == Found(latest)
    ensures var e := Ensure(d.spec, latest.spec);
            && (forall k: Kind :: RefsAt(k, e) == RefsAt(k, d.spec))
            && EraseRefs(Complete(e)) == EraseRefs(Complete(latest.spec))
            && (e.asgp.Some? <==> latest.spec.asgp.Some? || RefsAt(AutoScalingGroup, d.spec) != [])
            && (e.mip.Some? <==> latest.spec.mip.Some? || WantsMip(d.spec))
            && (TemplateOf(e).Some? <==> TemplateOf(latest.spec).Some? || WantsTemplate(d.spec))
            && (NetworkOf(e).Some? <==> NetworkOf(latest.spec).Some? || WantsNetwork(d.spec))
            && (forall k: Kind :: RefsAt(k, d.spec) == [] || ValuesAt(k, Clear(e)) == [])
  {
    var l := latest.spec;
    var e := Ensure(d.spec, l);
    FoundMeans(id, d, es, latest);
    RebuiltHasNoRefs(d.spec, es[FirstMatch(d.spec.name, es).value]);
    EnsureRestores(d.spec, l);
    hide SdkFind, Ensure, Clear, Complete, EraseRefs, RefsAt, ValuesAt, SpecFromSdk;
    forall k: Kind
      ensures RefsAt(k, e) == RefsAt(k, d.spec)
    {
      assert k != Cluster ==> RefsAt(k, l) == [];
      assert k == Cluster ==> RefsAt(k, l) == RefsAt(k, d.spec);
    }
    forall k: Kind
      ensures RefsAt(k, d.spec) == [] || ValuesAt(k, Clear(e)) == []
    {
      ClearedField(e, k);
    }
  }
}
