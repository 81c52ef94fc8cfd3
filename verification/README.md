# The ECS CapacityProvider controller, verified

This project models the part of the ECS controller that manages one kind of custom resource, the
`CapacityProvider` (`pkg/resource/capacity_provider`, `pkg/tags`, and the generated deep copies in
`apis/v1alpha1`), and proves what it keeps, undoes and converges to.

A CapacityProvider has a Spec (what the user declares) and a Status. Some fields of the Spec can be given
by reference to another resource: a `*Ref` stands beside the concrete field it resolves into, at four places
as a single reference and at two as a list, up to four structs deep. The controller

- *resolves* the references into the concrete fields, on the caller's own object, and can stop half way;
- sends the Spec to the service, narrowing its 64-bit numbers to 32 bits, and *rebuilds* the Spec from the
  answer, which drops the nested references;
- *restores* the references onto the rebuilt Spec, and *clears* the resolved values before the Spec is
  written back to the cluster;
- compares two Specs field by field into a *delta*, converts tags between lists and maps, mirrors and filters
  the tags that AWS owns, and syncs tags to the remote resource in two calls that can each fail;
- keeps the conditions of the Status, and caches one resource manager per account, region and role.

Each part has a file with its behaviour on values, a file with the laws about it, and, where the source
changes objects, maps or lists step by step, a file with the methods that do the same on classes, proved
against the first.

| values | laws | methods |
|---|---|---|
| `ApiTypes`, `References` | `References`, `ReferenceLaws`, `ReconcileLaws` | `Objects`, `ReferenceMethods` |
| `Payloads`, `UpdatePayloads` | `PayloadLaws` | `PayloadMethods`, `UpdatePayloadMethods` |
| `ReadPath` | `ReadLaws`, `SettleLaws`, `ReconcileLaws` | `ReadMethods` |
| `Delta` | `DeltaLaws`, `DeltaPaths`, `SettleLaws` | `DeltaMethods` |
| `Tags`, `TagSync` | `Tags`, `TagSyncLaws` | `TagMethods`, `TagSync` |
| `Conditions` | `Conditions` | `ConditionMethods` |
| `ManagerCache` | `ManagerCache` | `ManagerCache` |

The laws that reach furthest are `ReconcileLaws.PassKeepsDeclaredSpec` (resolving, creating or reading,
restoring and clearing give back the declared Spec, and no update follows), `References.ClearUndoesResolve`,
`ReadLaws.FindRefinesPlainFind` (exactly when the search loop, which writes before it looks, finds what a plain
search would), `PayloadLaws.BuildersAgree` (two builders read from their own lines, compared struct by struct),
`DeltaPaths.ReportedIffDiffer` (every path of the delta, over the two Specs), `TagSyncLaws.RunConverges`,
`Conditions.RunMeans`, `ManagerCache.AllServedIffKeysAgree` and `ManagerCache.StoresAreBounded`.

## Where the code differs from its comments, and properties that do not hold

- `references.go:201-207` says that ResolveReferences returns a copy. It returns the caller's own object,
  changed, and the model does the same; what was resolved before an error stays.
- `manager_factory.go:58-60` says that the cache key tells managers apart by account, region and role. All runs
  serve all requests of a set rightly if and only if requests of the set that share a key ask for the same account
  and region (`AllServedIffKeysAgree`), as requests without a slash in account and region do (`CleanRequestsAgree`).
  Every request with a slash in one of them is in some run given a manager of another account and region
  (`UncleanCanBeMisserved`), and next to such requests one is safe only if it has no slash at all, a role ARN's
  included (`CanBeMisservedIff`). Two calls for one request can return two managers (`CallsNeedNotShare`).
- The search loop of `sdkFind` is not a plain search when the matching element has no ARN and an element before
  it left another one behind: `OtherArnIsTaken` is such an answer, `FindRefinesPlainFind` the exact condition.
- The two payload builders do not give the same verdict on a Spec with a nil tag that passes every other check:
  the create builder alone dereferences the tag. `NilTagDividesBuilders` is such a Spec, `BuildersAgree` gives the
  exact condition.
- An echoed create is followed by an update exactly when the Spec is not in normal form, up to its references: it
  has an empty enum string, an unset UseLocalStorage, or a nil string in a list that the comparison of lists tells
  from an empty one (`EchoedCreateSettlesIff`).
- `onError` gives back `ackerr.Terminal` also for a non-terminal error when a Terminal condition that is not the
  last one is True, since only the last one is cleared: `StaleTerminalIsReported` shows one, `OnErrorIsTerminalIff`
  gives the exact condition.
- A terminal error leaves an earlier `Recoverable=True` in place, so the two conditions can both be True:
  `BothCanBeTrue` shows a run, `RunMeans` says when.

## Model

| member | source | states |
|---|---|---|
| References.ClearUndoesResolve | pkg/resource/capacity_provider/references.go:56-254 | for every API state and every outcome, a stop in the middle of a list included, clearing after resolving equals clearing before it |
| References.ValidIffNothingToClear | pkg/resource/capacity_provider/references.go:258-304 | validation accepts exactly the specs that clearing leaves alone, up to nil or empty lists |
| References.ValidMeans | pkg/resource/capacity_provider/references.go:258-304 | validation accepts exactly the specs in which no field has both a reference and a value |
| References.ValidateNamesFirst | pkg/resource/capacity_provider/references.go:258-304 | the error names the first of the six fields that has both |
| References.ClearIsIdempotent | pkg/resource/capacity_provider/references.go:56-104 | clearing twice is clearing once, and a cleared spec passes validation |
| References.ResolveListMeans | pkg/resource/capacity_provider/references.go:670-709 | the list resolver appends the ids in reference order, and its error is that of the first reference that does not resolve |
| References.FieldsMean | pkg/resource/capacity_provider/references.go:208-254 | a run of resolvers is a walk over the flat list of references: same error, same boolean, nothing but the values written |
| References.ResolveMeans | pkg/resource/capacity_provider/references.go:208-254 | the boolean says whether anything has a From, whatever the outcome; a resolver's error comes before the validation error; when every reference resolves each field holds what its references resolve to, also if the validation then fails |
| ReferenceLaws.ResolvedIffReady | pkg/resource/capacity_provider/references.go:315-394 | a reference resolves to an id exactly when its object is found, Synced=True, not Terminal=True and has that id: a cluster in its spec name, a security group and a subnet in their status ids, any other in its ARN |
| ReferenceLaws.FailsIff | pkg/resource/capacity_provider/references.go:315-394 | each error of a resolver exactly under its condition: no name, the namespace check, the read, Terminal=True, no Synced=True, no target field |
| ReferenceLaws.SuccessIffAllReady | pkg/resource/capacity_provider/references.go:208-254 | resolution succeeds exactly when the validation accepts and every reference with a From is ready; the boolean is true exactly when there is one |
| ReferenceLaws.SuccessFillsInOrder | pkg/resource/capacity_provider/references.go:670-862 | after a success each field, lists included, holds exactly the ids of the referenced objects in reference order |
| ReferenceLaws.SingleFieldsHold | pkg/resource/capacity_provider/references.go:306-641 | after a success each of the four single fields holds the named field of the object that was read |
| ReferenceLaws.FailureLeaves | pkg/resource/capacity_provider/references.go:208-254 | when a reference is not ready the error is that of the first such one; fields before it are resolved, its list holds the ids found before it, fields after it are as they were |
| ReferenceLaws.ClearedField | pkg/resource/capacity_provider/references.go:56-104 | clearing keeps every reference, empties exactly the values beside one, and changes nothing else |
| ReferenceLaws.ResolveAfterClear | pkg/resource/capacity_provider/references.go:208-254 | after a success, clearing and resolving again against the same API state succeeds and gives the same spec |
| ReferenceLaws.ResolveWithoutClear | pkg/resource/capacity_provider/references.go:208-304 | without the clearing, resolving again fails exactly when there was something to resolve |
| ReferenceLaws.EnsureRestores | pkg/resource/capacity_provider/references.go:125-199 | each nested reference is latest's if set, else desired's; all else is latest's; a container is created only on the way to a reference of desired |
| ReferenceLaws.RestoringIsUnique | pkg/resource/capacity_provider/references.go:125-199 | that description leaves nothing open but nil against empty reference lists |
| ReferenceLaws.EnsureUnchangedIff | pkg/resource/capacity_provider/references.go:134-198 | nothing is written exactly when latest lacks none of desired's nested references |
| ReferenceLaws.EnsureIsIdempotent | pkg/resource/capacity_provider/references.go:125-199 | restoring twice is restoring once |
| ReferenceMethods.ClearResolvedReferences | pkg/resource/capacity_provider/references.go:56-104 | on the object graph: an entirely new graph, whose value is the cleared one; the argument is not written |
| ReferenceMethods.CheckState | pkg/resource/capacity_provider/references.go:346-394 | two passes over the conditions: Terminal first, then Synced, then the target field |
| ReferenceMethods.Follow | pkg/resource/capacity_provider/references.go:315-340 | the checks of one reference in order, with the error of the first that fails |
| ReferenceMethods.AppendSecurityGroups | pkg/resource/capacity_provider/references.go:670-709 | the loop appends to the caller's list; ids found before an error stay |
| ReferenceMethods.AppendSubnets | pkg/resource/capacity_provider/references.go:769-808 | the loop appends to the caller's list; ids found before an error stay |
| ReferenceMethods.ValidateReferenceFields | pkg/resource/capacity_provider/references.go:258-304 | the nested tests find the first conflicting field |
| ReferenceMethods.ResolveReferences | pkg/resource/capacity_provider/references.go:208-254 | the resource given back is the caller's own, changed as Resolve says of its value, status and graph kept |
| ReferenceMethods.EnsureReferences | pkg/resource/capacity_provider/references.go:125-199 | an entirely new graph, whose value is latest's with the references restored; neither argument is written or shared |
| ReconcileLaws.EnsureOnNormal | pkg/resource/capacity_provider/references.go:125-199 | restoring onto the rebuilt spec gives every reference back and changes nothing else |
| ReconcileLaws.DeclaredSpecIsKept | pkg/resource/capacity_provider/references.go:56-254 | after resolving, rebuilding, restoring and clearing: the declared references, no value beside one, and the normal form of the rest |
| ReconcileLaws.DeclaredSpecComesBack | pkg/resource/capacity_provider/references.go:56-254 | a spec that is normal but for its references comes back as it was declared |
| ReconcileLaws.EchoRebuildsNormal | pkg/resource/capacity_provider/sdk.go:94-888 | a create answer and a read that echo the payload both rebuild the normal form of the spec |
| ReconcileLaws.ResolvedIsNormal | pkg/resource/capacity_provider/references.go:208-254 | resolving leaves a spec as normal as it was declared |
| ReconcileLaws.RestoredSettlesLikewise | pkg/resource/capacity_provider/references.go:125-199 | restoring references onto the rebuilt spec leaves the delta as it was |
| ReconcileLaws.PassKeepsDeclaredSpec | pkg/resource/capacity_provider/references.go:56-254 | the whole pass, from declared spec to declared spec, by way of a create or a read; the delta between what was sent and what came back is empty, before and after restoring |
| ReconcileLaws.UpdateKeepsDeclaredProviders | pkg/resource/capacity_provider/sdk.go:1330-1412 | after an update restoring has nothing to do, clearing gives the declared providers whatever was answered, and the declared spec exactly when cluster, name and tags were echoed |
| SettleLaws.NormalSettlesIff | pkg/resource/capacity_provider/delta.go:34-541 | between a spec and its normal form the delta is empty when they differ in references only, and, where the list comparison tells nil from "", in no other case |
| SettleLaws.EchoedCreateSettlesIff | pkg/resource/capacity_provider/sdk.go:504-905 | an echoed create leaves the normal form, nested references or not, and under the same condition an empty delta |
| Objects.CopyCells | apis/v1alpha1/zz_generated.deepcopy.go:4763-4773 | a list of string pointers is copied with its nil elements, every other element new |
| Objects.CopyRefs | apis/v1alpha1/zz_generated.deepcopy.go:4753-4762 | a list of reference wrappers is copied with its nil elements, wrappers, From structs and their strings new |
| Objects.CopyTag | apis/v1alpha1/zz_generated.deepcopy.go:7301-7313 | equal tag, with a key and a value of its own |
| Objects.CopyTags | apis/v1alpha1/zz_generated.deepcopy.go:502-514 | equal list, every tag, key and value new |
| Objects.CopyScaling | apis/v1alpha1/zz_generated.deepcopy.go:5086-5113 | equal value, the struct and its five pointers new |
| Objects.CopyRequirements | apis/v1alpha1/zz_generated.deepcopy.go:4150-4320 | equal value in all 24 fields; lists, ranges and every pointer in them new |
| Objects.CopyReservations | apis/v1alpha1/zz_generated.deepcopy.go:680-692 | equal value, the struct and its two pointers new |
| Objects.CopyLocalStorage | apis/v1alpha1/zz_generated.deepcopy.go:4731-4738 | equal value, the struct and its pointer new |
| Objects.CopyStorage | apis/v1alpha1/zz_generated.deepcopy.go:4850-4857 | equal value, the struct and its pointer new |
| Objects.CopyAutoRepair | apis/v1alpha1/zz_generated.deepcopy.go:278-285 | equal value, the struct and its pointer new |
| Objects.CopyOptimization | apis/v1alpha1/zz_generated.deepcopy.go:3957-3964 | equal value, the struct and its pointer new |
| Objects.NetworkNode.DeepCopy | apis/v1alpha1/zz_generated.deepcopy.go:4751-4797 | equal value, every object of all four lists new |
| Objects.TemplateNode.DeepCopy | apis/v1alpha1/zz_generated.deepcopy.go:4025-4082 | equal value, every object new, every pointer, down to strings and numbers |
| Objects.MipNode.DeepCopy | apis/v1alpha1/zz_generated.deepcopy.go:1817-1849 | equal value, every object new, every pointer, down to strings and numbers |
| Objects.AsgpNode.DeepCopy | apis/v1alpha1/zz_generated.deepcopy.go:298-325 | equal value, every object new, every pointer, down to strings and numbers |
| Objects.SpecNode.DeepCopy | apis/v1alpha1/zz_generated.deepcopy.go:477-515 | equal value, every object new, every pointer, down to strings and numbers |
| Objects.StatusNode.DeepCopy | apis/v1alpha1/zz_generated.deepcopy.go:528-566 | equal value, every object new, no condition object twice in the list |
| Objects.CapacityProviderNode.DeepCopy | apis/v1alpha1/zz_generated.deepcopy.go:418-434 | equal value, every object of Spec and Status new |
| PayloadLaws.RequirementsAgree | pkg/resource/capacity_provider/sdk.go:1518-1767 | the create and the update builder, each as its own text says, make the same of the 24 requirement fields, errors included |
| PayloadLaws.ScalingAgree | pkg/resource/capacity_provider/sdk.go:1429-1467 | the same for managed scaling |
| PayloadLaws.TemplateAgrees | pkg/resource/capacity_provider/sdk.go:1500-1801 | same end, and where create succeeds the update template is its common part |
| PayloadLaws.MipAgrees | pkg/resource/capacity_provider/sdk.go:1476-1806 | same end, and where create succeeds the update request has its common part |
| PayloadLaws.NilTagDividesBuilders | pkg/resource/capacity_provider/sdk.go:1309-1323 | on a spec with nothing but one nil tag create panics and update succeeds |
| PayloadLaws.BuilderVerdicts | pkg/resource/capacity_provider/sdk.go:909-1812 | each builder stops at the first thing in the spec that does not fit, in source order; create goes on to the tags |
| PayloadLaws.BuildersAgree | pkg/resource/capacity_provider/sdk.go:909-1812 | same errors always, same verdict exactly when no nil tag is left over; whatever the tags, the update request is the common part of what create sends without them |
| PayloadLaws.BuildersFailIffOutOfRange | pkg/resource/capacity_provider/sdk.go:909-1812 | without nil list elements, both fail exactly when some present number is outside int32 |
| PayloadLaws.RequirementsRoundTrip | pkg/resource/capacity_provider/sdk.go:623-812 | the 24 fields of the instance requirements come back from their payload in normal form, each narrowed number equal |
| PayloadLaws.CreateRoundTrip | pkg/resource/capacity_provider/sdk.go:529-1326 | an echoed create payload rebuilds the spec in normal form |
| PayloadLaws.NormalSendsTheSame | pkg/resource/capacity_provider/sdk.go:909-1326 | normalising is idempotent and does not change what is sent, verdict included |
| PayloadMethods.NewCreateRequestPayload | pkg/resource/capacity_provider/sdk.go:909-1326 | filled in field by field, with loops over lists, it gives the payload or the error that CreatePayload says |
| UpdatePayloadMethods.NewUpdateRequestPayload | pkg/resource/capacity_provider/sdk.go:1417-1812 | filled in field by field, it gives the payload or the error that UpdatePayload says |
| ReadLaws.FirstMatch | pkg/resource/capacity_provider/sdk.go:419-428 | the first element whose name is nil or the name of the spec, or that there is none |
| ReadLaws.ScanMeans | pkg/resource/capacity_provider/sdk.go:98-467 | the loop merges the first match into the resource as it was, but for the ARN that the elements before it left behind |
| ReadLaws.FindRefinesPlainFind | pkg/resource/capacity_provider/sdk.go:58-480 | sdkFind gives what a plain search gives exactly when the spec has no name, no ARN leaks, or the match is INACTIVE |
| ReadLaws.OtherArnIsTaken | pkg/resource/capacity_provider/sdk.go:98-467 | an answer of two elements for which sdkFind gives the ARN of the wrong one |
| ReadLaws.MatchWithArnIsFound | pkg/resource/capacity_provider/sdk.go:138-144 | in particular when the match has an ARN or comes first |
| ReadLaws.FindOutcome | pkg/resource/capacity_provider/sdk.go:58-480 | for every response: not found exactly for the API error UNKNOWN, no match, or an INACTIVE match; any other API error as it is; a panic exactly without a name |
| ReadLaws.CreateOutcome | pkg/resource/capacity_provider/sdk.go:504-905 | for every payload outcome and answer: which error comes out, and otherwise the spec, ARN, status fields, defaults and conditions of the created resource |
| ReadLaws.UpdateOutcome | pkg/resource/capacity_provider/sdk.go:1330-1412 | the same for an update |
| ReadLaws.FoundMeans | pkg/resource/capacity_provider/sdk.go:94-480 | the spec read is rebuilt from the match alone, with only ClusterRef kept, and its name is nil or the one asked for; status fields are the match's, ARN, defaults and conditions as stated |
| ReadLaws.DefaultsMean | pkg/resource/capacity_provider/sdk.go:1853-1871 | region, partition and account are the manager's where they were nil and unchanged otherwise; nothing else is written, and a second call changes nothing |
| ReadLaws.ReferencesSurviveRead | pkg/resource/capacity_provider/references.go:125-199 | after any read, restoring gives every declared reference back and keeps latest otherwise, and clearing leaves no value beside a reference |
| ReadMethods.NewRequirements | pkg/resource/capacity_provider/sdk.go:194-383 | the 24 requirement fields of an answer, filled one by one with new pointers, are those of RequirementsFromSdk |
| ReadMethods.NewMip | pkg/resource/capacity_provider/sdk.go:150-418 | the managed instances settings of an answer, struct by struct with new pointers |
| ReadMethods.Find | pkg/resource/capacity_provider/sdk.go:58-480 | on the object graph: the loop with its continue and break, on a copy that shares nothing with the argument; only the manager's own account, region and partition are pointed to besides |
| ReadMethods.Create | pkg/resource/capacity_provider/sdk.go:504-905 | payload, call and merge into a copy that shares nothing with the argument, with every way of failing |
| ReadMethods.Update | pkg/resource/capacity_provider/sdk.go:1330-1412 | the same for an update, whose answer leaves both providers alone |
| ReadMethods.SetStatusDefaults | pkg/resource/capacity_provider/sdk.go:1853-1871 | sets on the status object what WithDefaults says, by pointers to the manager's fields, and keeps the condition objects |
| DeltaLaws.DeltaEmptyIff | pkg/resource/capacity_provider/delta.go:34-541 | nothing is reported exactly when the compared fields match |
| DeltaPaths.ReportedIffDiffer | pkg/resource/capacity_provider/delta.go:34-541 | any path below Spec is reported exactly when every struct on the way is there in both specs and what the path leads to differs |
| DeltaPaths.ReportedBelowSpec | pkg/resource/capacity_provider/delta.go:34-541 | and nothing else is reported; with one resource nil it is the empty path |
| DeltaPaths.SecurityGroupsReportedIff | pkg/resource/capacity_provider/delta.go:34-541 | written out for the list four structs down |
| DeltaLaws.DeltaIsAntichain | pkg/resource/capacity_provider/delta.go:34-541 | no path is reported twice or below another reported path |
| DeltaLaws.DeltaSymmetric | pkg/resource/capacity_provider/delta.go:34-541 | the same paths with the arguments swapped, when SliceStringPEqual is symmetric |
| DeltaPaths.TagsReportedIff | pkg/resource/capacity_provider/delta.go:534-538 | Spec.Tags is reported exactly when the tag maps differ |
| DeltaLaws.EnsureLeavesDelta | pkg/resource/capacity_provider/references.go:125-199 | restoring references without new containers leaves every delta as it was |
| DeltaLaws.NewContainerIsReported | pkg/resource/capacity_provider/references.go:125-199 | a new container shows in the delta: against latest it is empty exactly when none was created |
| DeltaMethods.NewResourceDelta | pkg/resource/capacity_provider/delta.go:34-541 | one accumulator, filled along the fields in source order, holds exactly the paths of DeltaOf |
| Tags.FromAckTagsMeans | pkg/resource/capacity_provider/tags.go:61-78 | for every map, key order and iteration order: distinct keys, the ordered ones first, and the list converts back to the map |
| Tags.FromAckTagsIsUnique | pkg/resource/capacity_provider/tags.go:61-78 | when every key is ordered the result does not depend on the iteration order |
| Tags.PlainRoundTrip | pkg/resource/capacity_provider/tags.go:36-78 | on lists with distinct keys and no nil the two conversions are inverse, as lists |
| Tags.AckTagsMeans | pkg/resource/capacity_provider/tags.go:36-55 | the map holds exactly the last value of each key, "" for a nil one |
| Tags.KeysOfAckTags | pkg/resource/capacity_provider/tags.go:36-55 | the key order lists exactly the keys of the map |
| Tags.FilterMeans | pkg/resource/capacity_provider/manager.go:337-347 | the filtered list is the managed tags, each key at its first occurrence with its last value, whatever the iteration order; gone are exactly the keys that start with aws: or are system tags |
| Tags.MirroredMeans | pkg/resource/capacity_provider/manager.go:360-372 | mirroring takes the aws: tags of latest and leaves every other key as it was |
| Tags.FilterIsIdempotent | pkg/resource/capacity_provider/manager.go:337-347 | filtering twice gives the same list as once |
| Tags.MirrorIsInvisible | pkg/resource/capacity_provider/manager.go:337-372 | filtering after mirroring gives the same list as filtering alone |
| Tags.MirroredDiffersIff | pkg/resource/capacity_provider/manager.go:360-372 | mirrored tags differ from latest exactly where the two differed on a key that is not an aws: key of latest |
| Tags.EnsureTagsMeans | pkg/resource/capacity_provider/manager.go:299-316 | controller tags never override, and adding them twice changes nothing more |
| TagMethods.ConvertToOrderedACKTags | pkg/resource/capacity_provider/tags.go:36-55 | the loop gives the map and the key order |
| TagMethods.FromACKTags | pkg/resource/capacity_provider/tags.go:61-78 | deleting from the map while listing it gives one of the lists that IsFromAckTags allows, every tag, key and value a new object |
| TagMethods.IgnoreSystemTags | pkg/resource/capacity_provider/tags.go:85-92 | deleting while iterating leaves exactly the tags that are not system tags |
| TagMethods.SyncAWSTags | pkg/resource/capacity_provider/tags.go:113-119 | the aws: tags of b are written over a, also when both are one map |
| TagMethods.EnsureTags | pkg/resource/capacity_provider/manager.go:299-316 | replaces the tags of the spec, and nothing else, by new objects |
| TagMethods.FilterSystemTags | pkg/resource/capacity_provider/manager.go:337-347 | replaces the tags of the spec, and nothing else, by new objects |
| TagMethods.MirrorAWSTags | pkg/resource/capacity_provider/manager.go:360-372 | replaces the tags of desired only; a nil resource is left alone |
| TagSync.SyncTags | pkg/tags/sync.go:39-106 | a nil key or value is met before the first call and touches nothing; otherwise the remote tags and the error are those of Attempt |
| TagSync.BuildSdkTags | pkg/tags/sync.go:109-126 | the list carries each tag of the map once, in any order |
| TagSync.AddTags | pkg/tags/sync.go:109-136 | what the one call leaves at the service, and its error |
| TagSyncLaws.AttemptOutcome | pkg/tags/sync.go:51-105 | success exactly when the calls that have to be made succeed, otherwise the reason of the first that does not; key by key what each call changed; a failed add leaves the keys to be removed |
| TagSyncLaws.DereferencesIff | pkg/tags/sync.go:52-73 | a nil is met exactly when a tag or key is nil, or the last value of a desired key is, in either list |
| TagSyncLaws.AttemptAt | pkg/tags/sync.go:51-105 | whatever fails, each remote key is left as it was or as it is desired |
| TagSyncLaws.AttemptNeverHurts | pkg/tags/sync.go:51-105 | no attempt makes a key disagree that did not |
| TagSyncLaws.SuccessMeans | pkg/tags/sync.go:51-105 | after a success remote is desired exactly when it was at every key at which the tags compared with were |
| TagSyncLaws.RunNeverHurts | pkg/tags/sync.go:51-105 | over any run of attempts the set and the number of disagreeing keys never grow |
| TagSyncLaws.RunConverges | pkg/tags/sync.go:51-105 | from the first success that compared with what was there, the remote tags stay the desired ones |
| TagSyncLaws.MirroredSyncSparesAws | pkg/tags/sync.go:60-74 | after mirroring, a sync untags no aws: key and retags none that latest has |
| TagSyncLaws.MirroredTagsInDeltaIff | pkg/resource/capacity_provider/delta.go:534-538 | after mirroring, Spec.Tags is in the delta exactly when the originals differ on a key that is not an aws: key of latest |
| Conditions.LastOf | pkg/resource/capacity_provider/sdk.go:1884-1897 | the one pass finds the last condition of a type |
| Conditions.NextMeans | pkg/resource/capacity_provider/sdk.go:1875-1948 | one update: what is kept, what is added, and which of Terminal and Recoverable are True after it |
| Conditions.NextAt | pkg/resource/capacity_provider/sdk.go:1898-1940 | the same position by position: which condition is raised with which text, which is set False with a nil message, which stay |
| Conditions.NextAppends | pkg/resource/capacity_provider/sdk.go:1900-1931 | what is appended, exactly |
| Conditions.UpdateMeans | pkg/resource/capacity_provider/sdk.go:1875-1948 | a copy is given back exactly for an error or when a Terminal, Recoverable or Synced condition is there; it differs in conditions and defaults only |
| Conditions.ErrorIsReported | pkg/resource/capacity_provider/sdk.go:1898-1940 | an error is reported in a True condition, Terminal for a secret sentinel, a TerminalError or InvalidParameterException and Recoverable otherwise, with its own text or that of the API error in it |
| Conditions.NotUpdatedMeans | pkg/resource/capacity_provider/sdk.go:1944-1947 | where nil, false is returned the conditions would not have changed |
| Conditions.RunMeans | pkg/resource/capacity_provider/sdk.go:1875-1948 | over any run: other conditions untouched, at most one of each type, Terminal True exactly after a terminal error, Recoverable True exactly after the last non-terminal update was for an error |
| Conditions.RunAddsAtMostTwo | pkg/resource/capacity_provider/sdk.go:1875-1948 | a run of any length adds at most two conditions |
| Conditions.OnErrorIsTerminalIff | pkg/resource/capacity_provider/manager.go:401-421 | for every resource, nil included, and every error: what comes back, and when the error becomes ackerr.Terminal, exactly |
| Conditions.HandlersMean | pkg/resource/capacity_provider/manager.go:401-436 | onError and onSuccess give back the next conditions; with one Terminal condition at most, the error is replaced exactly when it is terminal |
| Conditions.BothCanBeTrue | pkg/resource/capacity_provider/sdk.go:1875-1948 | a run of two errors after which Terminal and Recoverable are both True |
| Conditions.StaleTerminalIsReported | pkg/resource/capacity_provider/manager.go:401-421 | a resource with two True Terminal conditions on which a non-terminal error is given back as ackerr.Terminal |
| ConditionMethods.FindConditions | pkg/resource/capacity_provider/sdk.go:1884-1897 | the pointers found are those of the last conditions of their types |
| ConditionMethods.UpdateNodes | pkg/resource/capacity_provider/sdk.go:1898-1947 | writing through the pointers and appending gives the next conditions |
| ConditionMethods.UpdateResource | pkg/resource/capacity_provider/sdk.go:1875-1948 | on a copy that shares nothing with the argument, which is unchanged |
| ConditionMethods.HandleError | pkg/resource/capacity_provider/manager.go:401-421 | the resource and error that OnError says, the argument itself when nothing was updated |
| ConditionMethods.HandleSuccess | pkg/resource/capacity_provider/manager.go:425-436 | the resource that OnSuccess says |
| ManagerCache.KeyIsInjective | pkg/resource/capacity_provider/manager_factory.go:58-61 | the key string tells requests apart when account and region contain no slash |
| ManagerCache.UncleanCollides | pkg/resource/capacity_provider/manager_factory.go:58-61 | and every other request shares its key with another account and region |
| ManagerCache.SlashFreeKeyIsUnique | pkg/resource/capacity_provider/manager_factory.go:58-61 | a key without slashes of its own is that of one request only, among all requests |
| ManagerCache.CachedAreBuiltForTheirKey | pkg/resource/capacity_provider/manager_factory.go:48-79 | in every reachable state each cached manager was built for a request with its key |
| ManagerCache.AllServedIffKeysAgree | pkg/resource/capacity_provider/manager_factory.go:48-79 | for every set of requests: every manager held, returned or cached for one of them is, in all reachable states, for its account and region if and only if requests of the set that share a key agree on both |
| ManagerCache.CleanRequestsAgree | pkg/resource/capacity_provider/manager_factory.go:58-61 | the requests without a slash in account and region are such a set |
| ManagerCache.UncleanCanBeMisserved | pkg/resource/capacity_provider/manager_factory.go:48-79 | for every other request there is a run in which a finished call for it has a manager of another account and region |
| ManagerCache.CanBeMisservedIff | pkg/resource/capacity_provider/manager_factory.go:48-79 | over all runs, a request can be given a manager of another account or region if and only if it has a slash anywhere |
| ManagerCache.WriterIsAlone | pkg/resource/capacity_provider/manager_factory.go:62-71 | the lock is respected in every interleaving |
| ManagerCache.StoresAreBounded | pkg/resource/capacity_provider/manager_factory.go:61-78 | a key stays; it is stored again at most once by each call that had already missed, and never after these are done |
| ManagerCache.AfterTheFirstStore | pkg/resource/capacity_provider/manager_factory.go:61-78 | counted from the first store under a key |
| ManagerCache.CallAlone | pkg/resource/capacity_provider/manager_factory.go:48-79 | an uninterrupted call does to the cache what the method does |
| ManagerCache.FailedCallAlone | pkg/resource/capacity_provider/manager_factory.go:70-76 | a call whose build fails leaves the cache alone and the lock free |
| ManagerCache.CallsNeedNotShare | pkg/resource/capacity_provider/manager_factory.go:70-77 | for every request there is a run in which two calls for it return different managers |
| ManagerCache.ResourceManagerFactory.ManagerFor | pkg/resource/capacity_provider/manager_factory.go:48-79 | a hit leaves the cache alone, a miss adds one new manager for the request and keeps the rest |

## Left out

- AWS calls, the Kubernetes API reader, metrics, logging and tracing: the answers of a call are parameters of the model.
- The API state is one function during one resolution, and ValidateCrossNamespaceReference is an arbitrary function of its three arguments that may fail.
- SliceStringPEqual is an arbitrary relation; reflexivity, symmetry and telling a nil string from an empty one are assumed only where a law says so. HasNilDifference means that nilness differs, MapStringStringEqual is map equality, the deep equality that compares ClusterRef (`equality.Semantic.Equalities.DeepEqual`) is equality of the values pointed to, and acktags.Merge keeps the existing tags.
- ackerr.AWSError finds the API error that errors.As finds in updateConditions. An error is its text, that API error, whether a TerminalError is in its chain, and whether it is one of the two secret sentinels.
- The backing arrays of slices: two slices that share one are not told apart from two that do not.
- The ObjectMeta of a resource is its namespace; TypeMeta, and the LastTransitionTime of a condition, are left out.
- The deep copy of a reference wrapper belongs to the ACK runtime, which is not part of this model; it is taken to copy From and its two strings.
- A pointer in a service response becomes a new object where the source keeps the response's own pointer. The response is a value here, so nothing else points to it.
- A loop variable whose address is taken is a new one in every iteration, as in Go 1.22 and later.
- Floats are reals. Only optional int64 and int32 fields carry a range.
- A nil element of the tags, or of the conditions where they are updated, is dereferenced by the source; the functions require that there is none, except in the payload builders and SyncTags, where the panic is an outcome of the model.
- Where the read and the create path have the same text for a struct, the model has one definition for both; the two payload builders share only the conversion of a single number, enum or string list.
- The nil test on the metadata stands before or after the one on the ARN, as the source has it in sdkFind or in sdkCreate; the model has one order for both, since the defaults that follow make them equal.
- The wrapper that sdkCreate defers at its end: no error can come after it.
- newResourceManager never fails in the source; the interleaving model also lets it fail, since ManagerFor handles that.
- sdkDelete merges nothing; LateInitialize, IsSynced, ARNFromName, identifiers, descriptors and finalizers are settled by reading one branch.
- The cluster and service resources: the same shapes again, or one-line status tests.
