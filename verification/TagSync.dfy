/** SyncTags, addTags and removeTags of pkg/tags/sync.go against a remote tag map whose two
    calls can fail, each after having been applied to an arbitrary part of its keys. */
module TagSync {
  import opened ApiTypes
  import opened Tags

  // ---- what an attempt does ----

  /** TagResource is map override and UntagResource key removal; a call that fails has done so
      for some of its keys. */
  datatype Fate = Succeeds | Fails(applied: set<string>, reason: string)

  datatype SyncResult = Synced | SyncFailed(reason: string) | NilDereference

  function Tagged(remote: TagMap, tags: TagMap, fate: Fate): TagMap {
    remote + map k | k in tags && (fate.Succeeds? || k in fate.applied) :: tags[k]
  }

  function Untagged(remote: TagMap, keys: set<string>, fate: Fate): TagMap {
    remote - set k | k in keys && (fate.Succeeds? || k in fate.applied)
  }

  function ToAdd(desired: TagMap, existing: TagMap): TagMap {
    map k | k in desired && !(k in existing && existing[k] == desired[k]) :: desired[k]
  }

  function ToDelete(desired: TagMap, existing: TagMap): set<string> {
    existing.Keys - desired.Keys
  }

  /** One attempt: first the tags to add, then, if that call did not fail, the keys to remove. */
  function Attempt(remote: TagMap, desired: TagMap, existing: TagMap, add: Fate, remove: Fate): (TagMap, SyncResult) {
    var toAdd, toDelete := ToAdd(desired, existing), ToDelete(desired, existing);
    var added := if toAdd == map[] then remote else Tagged(remote, toAdd, add);
    if toAdd != map[] && add.Fails? then (added, SyncFailed(add.reason))
    else
      var removed := if toDelete == {} then added else Untagged(added, toDelete, remove);
      (removed, if toDelete != {} && remove.Fails? then SyncFailed(remove.reason) else Synced)
  }

  // ---- nil keys and values ----

  predicate Keyed(l: seq<Option<Tag>>) {
    forall i :: 0 <= i < |l| ==> l[i].Some? && l[i].value.key.Some?
  }

  /** The map of the source, from keys to value pointers; the last duplicate wins. */
  function Pointers(l: seq<Option<Tag>>): map<string, Option<string>>
    requires Keyed(l)
  {
    if l == [] then map[]
    else Pointers(l[..|l| - 1])[l[|l| - 1].value.key.value := l[|l| - 1].value.value]
  }

  function Values(m: map<string, Option<string>>): TagMap {
    map k | k in m && m[k].Some? :: m[k].value
  }

  /** Where a nil is dereferenced: a nil tag or key, a nil desired value, or a nil existing value
      under a desired key. */
  ghost predicate Dereferences(a: seq<Option<Tag>>, b: seq<Option<Tag>>) {
    || !Keyed(a)
    || !Keyed(b)
    || exists k :: k in Pointers(a) && (Pointers(a)[k].None? || (k in Pointers(b) && Pointers(b)[k].None?))
  }

  function Unwrap(l: seq<Option<Tag>>): seq<Tag>
    requires Keyed(l)
  {
    seq(|l|, i requires 0 <= i < |l| => l[i].value)
  }

  lemma {:induction false} PointersMean(l: seq<Option<Tag>>)
    requires Keyed(l)
    ensures Pointers(l).Keys == AckTags(Unwrap(l)).Keys
    ensures forall k :: k in Pointers(l) && Pointers(l)[k].Some? ==> AckTags(Unwrap(l))[k] == Pointers(l)[k].value
  {
    if l != [] {
      PointersMean(l[..|l| - 1]);
      var ts := Unwrap(l);
      assert ts[..|ts| - 1] == Unwrap(l[..|l| - 1]);
    }
  }

  // ---- the remote resource and the loops ----

  class Remote {
    var tags: TagMap

    constructor (tags: TagMap)
      ensures this.tags == tags
    {
      this.tags := tags;
    }

    /** The service applies the tags it is sent, whatever their order, which does not matter as no key comes twice. */
    method TagResource(sdkTags: seq<Tag>, fate: Fate) returns (error: Option<string>)
      requires Distinct(KeyOrder(sdkTags))
      modifies this
      ensures tags == Tagged(old(tags), AckTags(sdkTags), fate)
      ensures error == if fate.Fails? then Some(fate.reason) else None
    {
      tags := Tagged(tags, AckTags(sdkTags), fate);
      return if fate.Fails? then Some(fate.reason) else None;
    }

    method UntagResource(keys: seq<string>, fate: Fate) returns (error: Option<string>)
      requires Distinct(keys)
      modifies this
      ensures tags == Untagged(old(tags), KeySet(keys), fate)
      ensures error == if fate.Fails? then Some(fate.reason) else None
    {
      tags := Untagged(tags, KeySet(keys), fate);
      return if fate.Fails? then Some(fate.reason) else None;
    }
  }

  method BuildMap(l: seq<Option<Tag>>) returns (m: map<string, Option<string>>, ok: bool)
    ensures ok <==> Keyed(l)
    ensures ok ==> m == Pointers(l)
  {
    m := map[];
    for i := 0 to |l|
      invariant Keyed(l[..i]) && m == Pointers(l[..i])
    {
      if l[i].None? || l[i].value.key.None? {
        return m, false;
      }
      assert l[..i + 1][..i] == l[..i];
      m := m[l[i].value.key.value := l[i].value.value];
    }
    assert l[..|l|] == l;
    return m, true;
  }

  /** The tags to add, and whether no nil was met. */
  method CollectAdditions(desired: map<string, Option<string>>, existing: map<string, Option<string>>)
    returns (toAdd: map<string, Option<string>>, ok: bool)
    ensures ok ==> forall k :: k in desired && k in existing ==> desired[k].Some? && existing[k].Some?
    ensures !ok ==> exists k :: k in desired && k in existing && (desired[k].None? || existing[k].None?)
    ensures ok ==> toAdd == map k | k in desired && !(k in existing && existing[k] == desired[k]) :: desired[k]
  {
    toAdd := map[];
    var left := desired.Keys;
    while left != {}
      invariant left <= desired.Keys
      invariant forall k :: k in desired && k !in left && k in existing ==> desired[k].Some? && existing[k].Some?
      invariant toAdd == map k | k in desired && k !in left && !(k in existing && existing[k] == desired[k])
                           :: desired[k]
      decreases |left|
    {
      var k :| k in left;
      if k in existing && (desired[k].None? || existing[k].None?) {
        return toAdd, false;
      }
      if k !in existing || existing[k].value != desired[k].value {
        toAdd := toAdd[k := desired[k]];
      }
      left := left - {k};
    }
    return toAdd, true;
  }

  method CollectDeletions(desired: map<string, Option<string>>, existing: map<string, Option<string>>)
    returns (toDelete: seq<string>)
    ensures KeySet(toDelete) == existing.Keys - desired.Keys && Distinct(toDelete)
  {
    toDelete := [];
    var left := existing.Keys;
    while left != {}
      invariant left <= existing.Keys
      invariant forall k :: k in toDelete <==> k in existing && k !in left && k !in desired
      invariant Distinct(toDelete)
      decreases |left|
    {
      var k :| k in left;
      if k !in desired {
        toDelete := toDelete + [k];
      }
      left := left - {k};
    }
  }

  /** ts carries each of the keys once, with its value in tags. */
  ghost predicate Carries(ts: seq<Tag>, tags: map<string, Option<string>>, keys: set<string>)
    requires keys <= tags.Keys && forall k :: k in tags ==> tags[k].Some?
  {
    && AckTags(ts) == (map k | k in keys :: tags[k].value)
    && |ts| == |keys|
    && Visits(KeyOrder(ts), keys)
  }

  lemma CarriesOneMore(ts: seq<Tag>, tags: map<string, Option<string>>, keys: set<string>, k: string)
    requires keys <= tags.Keys && forall k :: k in tags ==> tags[k].Some?
    requires Carries(ts, tags, keys) && k in tags && k !in keys
    ensures Carries(ts + [Tag(Some(k), tags[k])], tags, keys + {k})
  {
    var next := ts + [Tag(Some(k), tags[k])];
    assert next[..|ts|] == ts;
    assert AckTags(next) == AckTags(ts)[k := tags[k].value];
    assert KeyOrder(next) == KeyOrder(ts) + [k];
    hide AckTags, KeyOrder;
  }

  method BuildSdkTags(tags: map<string, Option<string>>) returns (sdkTags: seq<Tag>)
    requires forall k :: k in tags ==> tags[k].Some?
    ensures AckTags(sdkTags) == Values(tags)
    ensures |sdkTags| == |tags| && Distinct(KeyOrder(sdkTags))
  {
    hide Carries, AckTags, KeyOrder, Distinct, Values;
    sdkTags := [];
    var left := tags.Keys;
    NothingCarried(tags);
    assert tags.Keys - left == {};
    while left != {}
      invariant left <= tags.Keys
      invariant Carries(sdkTags, tags, tags.Keys - left)
      decreases |left|
    {
      var k :| k in left;
      CarriesOneMore(sdkTags, tags, tags.Keys - left, k);
      assert tags.Keys - (left - {k}) == (tags.Keys - left) + {k};
      sdkTags := sdkTags + [Tag(Some(k), tags[k])];
      left := left - {k};
    }
    assert tags.Keys - left == tags.Keys;
    AllCarried(sdkTags, tags);
  }

  lemma NothingCarried(tags: map<string, Option<string>>)
    requires forall k :: k in tags ==> tags[k].Some?
    ensures Carries([], tags, {})
  {
  }

  lemma AllCarried(ts: seq<Tag>, tags: map<string, Option<string>>)
    requires forall k :: k in tags ==> tags[k].Some?
    requires Carries(ts, tags, tags.Keys)
    ensures AckTags(ts) == Values(tags) && |ts| == |tags| && Distinct(KeyOrder(ts))
  {
  }

  /** addTags; the keys come in any order. */
  method AddTags(client: Remote, tags: map<string, Option<string>>, fate: Fate) returns (error: Option<string>)
    requires forall k :: k in tags ==> tags[k].Some?
    modifies client
    ensures client.tags == Tagged(old(client.tags), Values(tags), fate)
    ensures error == if fate.Fails? then Some(fate.reason) else None
  {
    hide Tagged, AckTags, Values, KeyOrder, Distinct;
    var sdkTags := BuildSdkTags(tags);
    error := client.TagResource(sdkTags, fate);
  }

  /** What is to be added and removed, or that a nil is dereferenced on the way. */
  method Plan(aTags: seq<Option<Tag>>, bTags: seq<Option<Tag>>)
    returns (toAdd: map<string, Option<string>>, toDelete: seq<string>, ok: bool)
    ensures ok <==> !Dereferences(aTags, bTags)
    ensures ok ==> (forall k :: k in toAdd ==> toAdd[k].Some?) && Distinct(toDelete)
    ensures ok ==> var d, e := AckTags(Unwrap(aTags)), AckTags(Unwrap(bTags));
                   Values(toAdd) == ToAdd(d, e) && KeySet(toDelete) == ToDelete(d, e)
  {
    toAdd, toDelete := map[], [];
    var desiredTags;
    desiredTags, ok := BuildMap(aTags);
    if !ok {
      return;
    }
    var existingTags;
    existingTags, ok := BuildMap(bTags);
    if !ok {
      return;
    }
    toAdd, ok := CollectAdditions(desiredTags, existingTags);
    if !ok {
      return;
    }
    toDelete := CollectDeletions(desiredTags, existingTags);
    if k :| k in toAdd && toAdd[k].None? {
      return toAdd, toDelete, false;
    }
    PointersMean(aTags);
    PointersMean(bTags);
    AdditionsAreToAdd(aTags, bTags, toAdd);
  }

  lemma AdditionsAreToAdd(a: seq<Option<Tag>>, b: seq<Option<Tag>>, toAdd: map<string, Option<string>>)
    requires Keyed(a) && Keyed(b)
    requires forall k :: k in toAdd
               <==> k in Pointers(a) && !(k in Pointers(b) && Pointers(b)[k] == Pointers(a)[k])
    requires forall k :: k in toAdd ==> toAdd[k] == Pointers(a)[k] && toAdd[k].Some?
    requires forall k :: k in Pointers(a) && k in Pointers(b) ==> Pointers(a)[k].Some? && Pointers(b)[k].Some?
    ensures Values(toAdd) == ToAdd(AckTags(Unwrap(a)), AckTags(Unwrap(b)))
  {
    PointersMean(a);
    PointersMean(b);
    var d, e := AckTags(Unwrap(a)), AckTags(Unwrap(b));
    hide Pointers, AckTags, Unwrap;
    forall k
      ensures k in Values(toAdd) <==> k in ToAdd(d, e)
      ensures k in Values(toAdd) ==> Values(toAdd)[k] == ToAdd(d, e)[k]
    {
    }
  }

  /** A nil is met before the first call, and then the remote tags are untouched; otherwise the
      calls do what Attempt says. */
  method SyncTags(client: Remote, aTags: seq<Option<Tag>>, bTags: seq<Option<Tag>>, add: Fate, remove: Fate)
    returns (result: SyncResult)
    modifies client
    ensures result == NilDereference <==> Dereferences(aTags, bTags)
    ensures result == NilDereference ==> client.tags == old(client.tags)
    ensures !Dereferences(aTags, bTags) ==>
              (client.tags, result)
              == Attempt(old(client.tags), AckTags(Unwrap(aTags)), AckTags(Unwrap(bTags)), add, remove)
  {
    var toAdd, toDelete, ok := Plan(aTags, bTags);
    if !ok {
      return NilDereference;
    }
    ghost var d, e := AckTags(Unwrap(aTags)), AckTags(Unwrap(bTags));
    assert toAdd == map[] <==> Values(toAdd) == map[] by {
      if toAdd != map[] {
        var k :| k in toAdd;
        assert k in Values(toAdd);
      }
    }
    assert toDelete == [] <==> KeySet(toDelete) == {} by {
      if toDelete != [] {
        assert toDelete[0] in KeySet(toDelete);
      }
    }
    hide Values, AckTags, Unwrap, ToAdd, ToDelete, KeySet, Tagged, Untagged, Dereferences, Distinct;
    if |toAdd| > 0 {
      var error := AddTags(client, toAdd, add);
      if error.Some? {
        return SyncFailed(error.value);
      }
    }
    if |toDelete| > 0 {
      var error := client.UntagResource(toDelete, remove);
      if error.Some? {
        return SyncFailed(error.value);
      }
    }
    return Synced;
  }
}
