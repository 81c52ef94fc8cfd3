/** sdkFind, sdkCreate and sdkUpdate of pkg/resource/capacity_provider/sdk.go, on values: how a
    response is merged into a copy of the custom resource. ReadMethods.dfy does it on the object graph. */
module ReadPath {
  import opened ApiTypes
  import opened Payloads
  import opened UpdatePayloads

  /** What a resource manager knows of itself. */
  datatype Identity = Identity(account: string, region: string, partition: string)

  /** setStatusDefaults. */
  function WithDefaults(id: Identity, s: Status): Status {
    var m := if s.metadata.None? then ResourceMetadata(None, None, None, None) else s.metadata.value;
    s.(metadata := Some(m.(region := if m.region.None? then Some(id.region) else m.region,
                           partition := if m.partition.None? then Some(id.partition) else m.partition,
                           ownerAccountId := if m.ownerAccountId.None? then Some(id.account) else m.ownerAccountId)),
       conditions := if s.conditions.None? then Some([]) else s.conditions)
  }

  /** A missing ARN leaves the one that is there. */
  function WithArn(s: Status, arn: Option<string>): Status {
    if arn.None? then s
    else
      var m := if s.metadata.None? then ResourceMetadata(None, None, None, None) else s.metadata.value;
      s.(metadata := Some(m.(arn := arn)))
  }

  /** What is overwritten before the name is looked at. */
  function MergeFirst(ko: CapacityProvider, e: SdkCapacityProvider): CapacityProvider {
    ko.(spec := ko.spec.(asgp := AsgpFromSdk(e.asgp), cluster := e.cluster, mip := MipFromSdk(e.mip)),
        status := WithArn(ko.status, e.arn))
  }

  /** What is overwritten once the element is known to be the right one. */
  function MergeRest(ko: CapacityProvider, e: SdkCapacityProvider): CapacityProvider {
    ko.(spec := ko.spec.(name := e.name, tags := ListFromSdk(e.tags)),
        status := ko.status.(status := StringFromEnum(e.status), kind := StringFromEnum(e.kind),
                             updateStatus := StringFromEnum(e.updateStatus),
                             updateStatusReason := e.updateStatusReason))
  }

  predicate NameMatches(name: Option<string>, e: SdkCapacityProvider) {
    e.name.None? || name.None? || e.name.value == name.value
  }

  /** The search loop: every element is merged first and passed over afterwards. */
  function Scan(ko: CapacityProvider, es: seq<SdkCapacityProvider>): Option<CapacityProvider>
    decreases |es|
  {
    if es == [] then None
    else
      var next := MergeFirst(ko, es[0]);
      if NameMatches(ko.spec.name, es[0]) then Some(MergeRest(next, es[0])) else Scan(next, es[1..])
  }

  datatype Response = Listed(elements: seq<SdkCapacityProvider>) | ApiError(code: Option<string>, reason: string)

  datatype Read = Found(latest: CapacityProvider) | NotFound | Failed(reason: string) | NilDereference

  predicate Inactive(s: Status) {
    s.status == Some("INACTIVE")
  }

  /** What sdkFind makes of the search result. */
  function Conclude(id: Identity, found: Option<CapacityProvider>): Read {
    if found.None? then NotFound
    else
      var ko := found.value.(status := WithDefaults(id, found.value.status));
      if Inactive(ko.status) then NotFound else Found(ko)
  }

  /** Around the search: the name is dereferenced, the API is called, the result concluded. */
  function ReadWith(id: Identity, r: CapacityProvider, response: Response, found: Option<CapacityProvider>): Read {
    if r.spec.name.None? then NilDereference
    else
      match response
      case ApiError(code, reason) => if code == Some("UNKNOWN") then NotFound else Failed(reason)
      case Listed(_) => Conclude(id, found)
  }

  function Listing(response: Response): seq<SdkCapacityProvider> {
    if response.Listed? then response.elements else []
  }

  /** sdkFind. */
  function SdkFind(id: Identity, r: CapacityProvider, response: Response): Read {
    ReadWith(id, r, response, Scan(r, Listing(response)))
  }

  // ---- sdkCreate ----

  datatype Create = Created(created: CapacityProvider) | Rejected(reason: string) | CreateFailed(reason: string)
                  | CreatePanic

  datatype CreateResponse = Echo(element: Option<SdkCapacityProvider>) | CreateError(reason: string)

  /** sdkCreate; the response comes from a call with the payload. */
  function SdkCreate(id: Identity, desired: CapacityProvider, respond: CreateInput -> CreateResponse): Create {
    match CreatePayload(desired.spec)
    case Err(field) => Rejected(field)
    case Panic => CreatePanic
    case Ok(input) =>
      match respond(input)
      case CreateError(reason) => CreateFailed(reason)
      case Echo(None) => CreatePanic
      case Echo(Some(e)) =>
        var ko := MergeRest(MergeFirst(desired, e), e);
        Created(ko.(status := WithDefaults(id, ko.status)))
  }

  // ---- sdkUpdate ----

  datatype Update = UpdateDone(updated: CapacityProvider) | UpdateRejected(reason: string)
                  | UpdateFailed(reason: string) | UpdatePanic

  datatype UpdateResponse = Answer(element: Option<SdkCapacityProvider>) | UpdateError(reason: string)

  /** What an update answer overwrites: both providers, and so every nested reference, stay. */
  function MergeUpdate(ko: CapacityProvider, e: SdkCapacityProvider): CapacityProvider {
    var m := if ko.status.metadata.None? then ResourceMetadata(None, None, None, None) else ko.status.metadata.value;
    ko.(spec := ko.spec.(cluster := e.cluster, name := e.name, tags := ListFromSdk(e.tags)),
        status := ko.status.(metadata := Some(if e.arn.Some? then m.(arn := e.arn) else m),
                             status := StringFromEnum(e.status), kind := StringFromEnum(e.kind),
                             updateStatus := StringFromEnum(e.updateStatus),
                             updateStatusReason := e.updateStatusReason))
  }

  /** sdkUpdate; the response comes from a call with the payload. */
  function SdkUpdate(id: Identity, desired: CapacityProvider, respond: UpdateInput -> UpdateResponse): Update {
    match UpdatePayload(desired.spec)
    case Err(field) => UpdateRejected(field)
    case Panic => UpdatePanic
    case Ok(input) =>
      match respond(input)
      case UpdateError(reason) => UpdateFailed(reason)
      case Answer(None) => UpdatePanic
      case Answer(Some(e)) =>
        var ko := MergeUpdate(desired, e);
        UpdateDone(ko.(status := WithDefaults(id, ko.status)))
  }
}
