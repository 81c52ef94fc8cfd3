/** Convergence of the tag sync over any run of attempts, failed ones included, and what
    mirroring the aws: tags does to a sync and to the delta. */
module TagSyncLaws {
  import opened ApiTypes
  import opened Tags
  import opened TagSync
  import Delta
  import DeltaPaths

  /** The keys at which the remote tags are not as desired. */
  function Disagreeing(remote: TagMap, desired: TagMap): set<string> {
    set k | k in remote.Keys + desired.Keys && Find(remote, k) != Find(desired, k)
  }

  lemma AgreeingEverywhere(remote: TagMap, desired: TagMap)
    ensures Disagreeing(remote, desired) == {} <==> remote == desired
  {
    if Disagreeing(remote, desired) == {} {
      forall k
        ensures Find(remote, k) == Find(desired, k)
      {
        if k in remote || k in desired {
          assert k !in Disagreeing(remote, desired);
        }
      }
      MapsDifferAtAKey(remote, desired);
    }
  }

  lemma TaggedAt(remote: TagMap, tags: TagMap, fate: Fate, k: string)
    ensures Find(Tagged(remote, tags, fate), k)
         == if k in tags && (fate.Succeeds? || k in fate.applied) then Find(tags, k) else Find(remote, k)
  {
  }

  lemma UntaggedAt(remote: TagMap, keys: set<string>, fate: Fate, k: string)
    ensures Find(Untagged(remote, keys, fate), k)
         == if k in keys && (fate.Succeeds? || k in fate.applied) then None else Find(remote, k)
  {
  }

  /** k is to be added: it is desired and the controller does not believe it is there. */
  predicate Adds(desired: TagMap, existing: TagMap, k: string) {
    k in desired && (k !in existing || existing[k] != desired[k])
  }

  predicate Removes(desired: TagMap, existing: TagMap, k: string) {
    k in existing && k !in desired
  }

  predicate Applies(fate: Fate, k: string) {
    match fate
    case Succeeds => true
    case Fails(applied, _) => k in applied
  }

  /** An attempt succeeds exactly when the calls it has to make do, and otherwise fails with the
      reason of the first that does not. Only a key that a call was made for and that the call
      was applied to changes; a failed add leaves every key to be removed as it was. */
  lemma AttemptOutcome(remote: TagMap, desired: TagMap, existing: TagMap, add: Fate, remove: Fate)
    ensures var (after, result) := Attempt(remote, desired, existing, add, remove);
            var adding, removing := exists k :: Adds(desired, existing, k), exists k :: Removes(desired, existing, k);
            var stopped := adding && add.Fails?;
            && (result == Synced <==> !stopped && !(removing && remove.Fails?))
            && (stopped ==> result == SyncFailed(add.reason))
            && (!stopped && removing && remove.Fails? ==> result == SyncFailed(remove.reason))
            && forall k :: Find(after, k)
                 == if Adds(desired, existing, k) && Applies(add, k) then Find(desired, k)
                    else if Removes(desired, existing, k) && !stopped && Applies(remove, k) then None
                    else Find(remote, k)
  {
    var toAdd, toDelete := ToAdd(desired, existing), ToDelete(desired, existing);
    assert forall k :: k in toAdd <==> Adds(desired, existing, k);
    assert forall k :: k in toDelete <==> Removes(desired, existing, k);
    assert toAdd != map[] ==> exists k :: k in toAdd;
    assert toDelete != {} ==> exists k :: k in toDelete;
    var adding, removing := exists k :: Adds(desired, existing, k), exists k :: Removes(desired, existing, k);
    var (after, result) := Attempt(remote, desired, existing, add, remove);
    forall k
      ensures Find(after, k)
           == if Adds(desired, existing, k) && Applies(add, k) then Find(desired, k)
              else if Removes(desired, existing, k) && !(adding && add.Fails?) && Applies(remove, k) then None
              else Find(remote, k)
    {
      hide Tagged, Untagged;
      var added := if toAdd == map[] then remote else Tagged(remote, toAdd, add);
      TaggedAt(remote, toAdd, add, k);
      UntaggedAt(added, toDelete, remove, k);
    }
  }

  // ---- nil keys and values ----

  ghost predicate IsLastPointer(l: seq<Option<Tag>>, i: int)
    requires Keyed(l)
  {
    0 <= i < |l| && forall j :: i < j < |l| ==> l[j].value.key != l[i].value.key
  }

  lemma {:induction false} LastPointerIsIn(l: seq<Option<Tag>>, i: int)
    requires Keyed(l) && IsLastPointer(l, i)
    ensures l[i].value.key.value in Pointers(l) && Pointers(l)[l[i].value.key.value] == l[i].value.value
  {
    if i < |l| - 1 {
      LastPointerIsIn(l[..|l| - 1], i);
    }
  }

  lemma {:induction false} PointerIsLast(l: seq<Option<Tag>>, k: string) returns (i: int)
    requires Keyed(l) && k in Pointers(l)
    ensures IsLastPointer(l, i) && l[i].value.key == Some(k)
  {
    i := |l| - 1;
    if l[i].value.key != Some(k) {
      i := PointerIsLast(l[..|l| - 1], k);
    }
  }

  lemma PointersAt(l: seq<Option<Tag>>)
    requires Keyed(l)
    ensures forall i :: IsLastPointer(l, i) ==>
              l[i].value.key.value in Pointers(l) && Pointers(l)[l[i].value.key.value] == l[i].value.value
    ensures forall k :: k in Pointers(l) <==> exists i :: IsLastPointer(l, i) && l[i].value.key == Some(k)
  {
    forall i | IsLastPointer(l, i)
      ensures l[i].value.key.value in Pointers(l) && Pointers(l)[l[i].value.key.value] == l[i].value.value
    {
      LastPointerIsIn(l, i);
    }
    forall k | k in Pointers(l)
      ensures exists i :: IsLastPointer(l, i) && l[i].value.key == Some(k)
    {
      var i := PointerIsLast(l, k);
    }
  }

  /** SyncTags meets a nil exactly when a tag or a key is nil, or the last value of a desired key
      is, or the last existing value of a desired key. */
  lemma DereferencesIff(a: seq<Option<Tag>>, b: seq<Option<Tag>>)
    ensures Dereferences(a, b)
       <==> || (exists t :: t in a + b && (t.None? || t.value.key.None?))
            || (Keyed(a) && Keyed(b)
                && exists i :: IsLastPointer(a, i)
                     && (a[i].value.value.None?
                         || exists j :: IsLastPointer(b, j) && b[j].value.key == a[i].value.key
                              && b[j].value.value.None?))
  {
    KeyedIff(a, b);
    if Keyed(a) && Keyed(b) {
      PointersAt(a);
      PointersAt(b);
      hide Pointers, Keyed, IsLastPointer;
    }
  }

  lemma KeyedIff(a: seq<Option<Tag>>, b: seq<Option<Tag>>)
    ensures Keyed(a) && Keyed(b) <==> !exists t :: t in a + b && (t.None? || t.value.key.None?)
  {
    if !Keyed(a) {
      var i :| 0 <= i < |a| && (a[i].None? || a[i].value.key.None?);
      assert a[i] in a + b;
    }
    if !Keyed(b) {
      var i :| 0 <= i < |b| && (b[i].None? || b[i].value.key.None?);
      assert b[i] in a + b;
    }
  }

  // ---- what no attempt does ----

  /** Whatever the controller believes to be there and whatever fails, an attempt leaves each
      remote key as it was or as it is desired. */
  lemma AttemptAt(remote: TagMap, desired: TagMap, existing: TagMap, add: Fate, remove: Fate, k: string)
    ensures var after := Attempt(remote, desired, existing, add, remove).0;
            Find(after, k) == Find(remote, k) || Find(after, k) == Find(desired, k)
  {
    hide Tagged, Untagged;
    var toAdd, toDelete := ToAdd(desired, existing), ToDelete(desired, existing);
    TaggedAt(remote, toAdd, add, k);
    var added := if toAdd == map[] then remote else Tagged(remote, toAdd, add);
    UntaggedAt(added, toDelete, remove, k);
  }

  /** So no attempt makes a key disagree that did not. */
  lemma AttemptNeverHurts(remote: TagMap, desired: TagMap, existing: TagMap, add: Fate, remove: Fate)
    ensures var after := Attempt(remote, desired, existing, add, remove).0;
            Disagreeing(after, desired) <= Disagreeing(remote, desired)
  {
    var after := Attempt(remote, desired, existing, add, remove).0;
    forall k | k in Disagreeing(after, desired)
      ensures k in Disagreeing(remote, desired)
    {
      AttemptAt(remote, desired, existing, add, remove, k);
      hide Attempt;
    }
  }

  lemma SuccessAt(remote: TagMap, desired: TagMap, existing: TagMap, add: Fate, remove: Fate, k: string)
    requires Attempt(remote, desired, existing, add, remove).1 == Synced
    ensures Find(Attempt(remote, desired, existing, add, remove).0, k)
         == if Find(existing, k) == Find(desired, k) then Find(remote, k) else Find(desired, k)
  {
    hide Tagged, Untagged;
    var toAdd, toDelete := ToAdd(desired, existing), ToDelete(desired, existing);
    var added := if toAdd == map[] then remote else Tagged(remote, toAdd, add);
    TaggedAt(remote, toAdd, add, k);
    UntaggedAt(added, toDelete, remove, k);
    assert Find(added, k) == if k in toAdd then Find(desired, k) else Find(remote, k);
    assert k in toAdd || k in toDelete <==> Find(existing, k) != Find(desired, k);
  }

  /** After a success the remote tags are the desired ones exactly when they were at every key at
      which the tags the controller compared with already were. */
  lemma SuccessMeans(remote: TagMap, desired: TagMap, existing: TagMap, add: Fate, remove: Fate)
    requires Attempt(remote, desired, existing, add, remove).1 == Synced
    ensures Attempt(remote, desired, existing, add, remove).0 == desired
       <==> forall k :: Find(existing, k) == Find(desired, k) ==> Find(remote, k) == Find(desired, k)
  {
    hide Attempt, Find;
    var after := Attempt(remote, desired, existing, add, remove).0;
    forall k
      ensures Find(after, k) == if Find(existing, k) == Find(desired, k) then Find(remote, k) else Find(desired, k)
    {
      SuccessAt(remote, desired, existing, add, remove, k);
    }
    MapsDifferAtAKey(after, desired);
  }

  /** In particular when the controller compared with what was there. */
  lemma SuccessConverges(remote: TagMap, desired: TagMap, add: Fate, remove: Fate)
    requires Attempt(remote, desired, remote, add, remove).1 == Synced
    ensures Attempt(remote, desired, remote, add, remove).0 == desired
  {
    SuccessMeans(remote, desired, remote, add, remove);
  }

  // ---- runs ----

  /** One attempt of a run: what the controller believed to be there, and how its calls went. */
  datatype Try = Try(existing: TagMap, add: Fate, remove: Fate)

  /** The remote tags after each attempt of a run, the start included. */
  function Trace(remote: TagMap, desired: TagMap, tries: seq<Try>): (ms: seq<TagMap>)
    ensures |ms| == |tries| + 1 && ms[0] == remote
    decreases |tries|
  {
    if tries == [] then [remote]
    else
      var next := Attempt(remote, desired, tries[0].existing, tries[0].add, tries[0].remove).0;
      [remote] + Trace(next, desired, tries[1..])
  }

  lemma {:induction false} TraceStep(remote: TagMap, desired: TagMap, tries: seq<Try>, i: nat)
    requires i < |tries|
    ensures var ms := Trace(remote, desired, tries);
            ms[i + 1] == Attempt(ms[i], desired, tries[i].existing, tries[i].add, tries[i].remove).0
    decreases |tries|
  {
    var next := Attempt(remote, desired, tries[0].existing, tries[0].add, tries[0].remove).0;
    if i > 0 {
      TraceStep(next, desired, tries[1..], i - 1);
    }
  }

  /** Over any run the disagreeing keys only ever become fewer. */
  lemma {:induction false} RunNeverHurts(remote: TagMap, desired: TagMap, tries: seq<Try>, i: nat, j: nat)
    requires i <= j <= |tries|
    ensures var ms := Trace(remote, desired, tries);
            && Disagreeing(ms[j], desired) <= Disagreeing(ms[i], desired)
            && |Disagreeing(ms[j], desired)| <= |Disagreeing(ms[i], desired)|
    decreases j - i
  {
    var ms := Trace(remote, desired, tries);
    if i < j {
      TraceStep(remote, desired, tries, i);
      AttemptNeverHurts(ms[i], desired, tries[i].existing, tries[i].add, tries[i].remove);
      RunNeverHurts(remote, desired, tries, i + 1, j);
      hide Disagreeing, Attempt;
      SmallerSet(Disagreeing(ms[i + 1], desired), Disagreeing(ms[i], desired));
    }
  }

  /** From the first attempt on that compared with what was there and succeeded, the remote tags
      are the desired ones, whatever the later attempts believe and however they go. */
  lemma RunConverges(remote: TagMap, desired: TagMap, tries: seq<Try>, i: nat, j: nat)
    requires i < j <= |tries|
    requires tries[i].existing == Trace(remote, desired, tries)[i]
    requires Attempt(tries[i].existing, desired, tries[i].existing, tries[i].add, tries[i].remove).1 == Synced
    ensures Trace(remote, desired, tries)[j] == desired
  {
    var ms := Trace(remote, desired, tries);
    TraceStep(remote, desired, tries, i);
    SuccessConverges(ms[i], desired, tries[i].add, tries[i].remove);
    hide Attempt;
    AgreeingEverywhere(ms[i + 1], desired);
    RunNeverHurts(remote, desired, tries, i + 1, j);
    AgreeingEverywhere(ms[j], desired);
  }

  // ---- aws: tags ----

  /** After mirroring, a sync of desired against latest untags no aws: key and retags none that
      latest has. */
  lemma MirroredSyncSparesAws(desired: seq<Tag>, latest: seq<Tag>, mirrored: seq<Tag>, k: string)
    requires Mirrored(desired, latest, mirrored) && IsAws(k)
    ensures k !in ToDelete(AckTags(mirrored), AckTags(latest))
    ensures k in AckTags(latest) ==> k !in ToAdd(AckTags(mirrored), AckTags(latest))
  {
    FromAckTagsMeans(WithAwsOf(AckTags(desired), AckTags(latest)), KeyOrder(desired), mirrored);
    FindWithAws(AckTags(desired), AckTags(latest));
  }

  /** After mirroring, Spec.Tags is in the delta exactly when the original tags differ on a key
      that is not an aws: key of latest. */
  lemma MirroredTagsInDeltaIff(eq: Delta.SliceEq, a: Spec, b: Spec, desired: seq<Tag>)
    requires NoNil(a.tags) && NoNil(b.tags)
    requires Mirrored(desired, TagsOf(b.tags), TagsOf(a.tags))
    ensures [Delta.SPEC, Delta.TAGS] in Delta.DeltaOf(eq, Some(a), Some(b))
       <==> exists k :: !(IsAws(k) && k in AckTags(TagsOf(b.tags)))
                        && Find(AckTags(desired), k) != Find(AckTags(TagsOf(b.tags)), k)
  {
    DeltaPaths.TagsReportedIff(eq, a, b);
    MirroredDiffersIff(desired, TagsOf(b.tags), TagsOf(a.tags));
  }
}
