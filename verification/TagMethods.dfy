/** The tag operations of pkg/resource/capacity_provider/tags.go and manager.go as they are
    written: maps changed in place, lists grown in loops, tag objects replaced on the spec.
    Each is proved to do what Tags.dfy says. A loop over a map takes its keys in any order. */
module TagMethods {
  import opened ApiTypes
  import opened Tags
  import O = Objects

  type TagNode = O.Cell<O.TagStruct>

  /** A Go map from tag keys to tag values. */
  class AckTagMap {
    var m: TagMap

    constructor (m: TagMap)
      ensures this.m == m
    {
      this.m := m;
    }
  }

  function Contents(l: Slice<O.Cell?<O.TagStruct>>): seq<Tag>
    requires NoNil(O.TagListOf(l))
  {
    TagsOf(O.TagListOf(l))
  }

  lemma ContentsAt(l: Slice<O.Cell?<O.TagStruct>>)
    requires NoNil(O.TagListOf(l))
    ensures |Contents(l)| == |Elements(l)|
    ensures forall i :: 0 <= i < |Elements(l)| ==>
              Elements(l)[i] != null && Some(Contents(l)[i]) == O.TagOf(Elements(l)[i])
  {
    forall i | 0 <= i < |Elements(l)|
      ensures Elements(l)[i] != null && Some(Contents(l)[i]) == O.TagOf(Elements(l)[i])
    {
      assert Elements(O.TagListOf(l))[i] == O.TagOf(Elements(l)[i]);
    }
  }

  method ConvertToOrderedACKTags(tags: Slice<O.Cell?<O.TagStruct>>) returns (result: AckTagMap, keyOrder: seq<string>)
    requires NoNil(O.TagListOf(tags))
    ensures fresh(result)
    ensures result.m == AckTags(Contents(tags)) && keyOrder == KeyOrder(Contents(tags))
  {
    result := new AckTagMap(map[]);
    keyOrder := [];
    var nodes := Elements(tags);
    ghost var ts := Contents(tags);
    ContentsAt(tags);
    if |nodes| == 0 {
      return;
    }
    for i := 0 to |nodes|
      invariant result.m == AckTags(ts[..i]) && keyOrder == KeyOrder(ts[..i])
    {
      assert ts[..i + 1][..i] == ts[..i];
      var t := nodes[i];
      if t.value.key != null {
        keyOrder := keyOrder + [t.value.key.value];
        if t.value.value != null {
          result.m := result.m[t.value.key.value := t.value.value.value];
        } else {
          result.m := result.m[t.value.key.value := ""];
        }
      }
    }
    assert ts[..|ts|] == ts;
  }

  lemma ListedSnoc(m: TagMap, ks: seq<string>, k: string)
    requires k in m && forall x :: x in ks ==> x in m
    ensures Listed(m, ks + [k]) == Listed(m, ks) + [Tag(Some(k), Some(m[k]))]
  {
  }

  function Values(nodes: seq<TagNode>): seq<Tag> {
    seq(|nodes|, i requires 0 <= i < |nodes| => O.TagOf(nodes[i]).value)
  }

  /** A new tag, with pointers to a key and a value of its own. */
  method NewTag(k: string, v: string) returns (tag: TagNode)
    ensures O.TagOf(tag) == Some(Tag(Some(k), Some(v))) && fresh(O.TagGraph(tag))
  {
    var key := new O.Cell(k);
    var value := new O.Cell(v);
    tag := new O.Cell(O.TagStruct(key, value));
  }

  /** The first loop of fromACKTags: the tags of the ordered keys, deleted from the map as they
      are taken. */
  method TakeOrdered(tags: AckTagMap, keyOrder: seq<string>) returns (nodes: seq<TagNode>)
    modifies tags
    ensures tags.m == old(tags.m) - KeySet(keyOrder)
    ensures forall k :: k in Firsts(keyOrder, old(tags.m).Keys) ==> k in old(tags.m)
    ensures Values(nodes) == Listed(old(tags.m), Firsts(keyOrder, old(tags.m).Keys))
    ensures forall c :: c in nodes ==> fresh(O.TagGraph(c))
  {
    hide Values, KeySet, Firsts, Listed;
    ghost var m0 := tags.m;
    NothingTaken(m0);
    nodes := [];
    for i := 0 to |keyOrder|
      invariant tags.m == m0 - KeySet(keyOrder[..i])
      invariant forall k :: k in Firsts(keyOrder[..i], m0.Keys) ==> k in m0
      invariant Values(nodes) == Listed(m0, Firsts(keyOrder[..i], m0.Keys))
      invariant forall c :: c in nodes ==> fresh(O.TagGraph(c))
    {
      var k := keyOrder[i];
      assert keyOrder[..i + 1] == keyOrder[..i] + [k];
      TakeStep(m0, keyOrder[..i], k);
      if k in tags.m {
        var v := tags.m[k];
        var tag := NewTag(k, v);
        ValuesSnoc(nodes, tag);
        nodes := nodes + [tag];
        tags.m := tags.m - {k};
      }
    }
    assert keyOrder[..|keyOrder|] == keyOrder;
  }

  lemma NothingTaken(m: TagMap)
    ensures Values([]) == [] && m - KeySet([]) == m && Firsts([], m.Keys) == [] && Listed(m, []) == []
  {
  }

  /** Taking one more ordered key. */
  lemma TakeStep(m: TagMap, ks: seq<string>, k: string)
    requires forall x :: x in Firsts(ks, m.Keys) ==> x in m
    ensures var left, taken, next := m - KeySet(ks), Firsts(ks, m.Keys), Firsts(ks + [k], m.Keys);
            && (forall x :: x in next ==> x in m)
            && (k in left ==> left - {k} == m - KeySet(ks + [k])
                              && Listed(m, next) == Listed(m, taken) + [Tag(Some(k), Some(left[k]))])
            && (k !in left ==> left == m - KeySet(ks + [k]) && next == taken)
  {
    assert KeySet(ks + [k]) == KeySet(ks) + {k};
    assert (ks + [k])[..|ks|] == ks;
    assert Firsts(ks + [k], m.Keys) == Firsts(ks, m.Keys) + if k in m.Keys && k !in ks then [k] else [];
    hide Firsts;
    if k in m && k !in ks {
      ListedSnoc(m, Firsts(ks, m.Keys), k);
    }
  }

  lemma ValuesSnoc(nodes: seq<TagNode>, c: TagNode)
    ensures Values(nodes + [c]) == Values(nodes) + [O.TagOf(c).value]
  {
  }

  /** The second loop of fromACKTags: what is left of the map, in the order in which the keys
      happen to come. */
  method AppendRest(m: TagMap, taken: seq<TagNode>) returns (nodes: seq<TagNode>, ghost iter: seq<string>)
    ensures Visits(iter, m.Keys) && (forall k :: k in iter ==> k in m)
    ensures Values(nodes) == Values(taken) + Listed(m, iter)
    ensures forall c :: c in nodes ==> c in taken || fresh(O.TagGraph(c))
  {
    nodes, iter := taken, [];
    var left := m.Keys;
    while left != {}
      invariant left <= m.Keys
      invariant Visits(iter, m.Keys - left) && (forall k :: k in iter ==> k in m)
      invariant Values(nodes) == Values(taken) + Listed(m, iter)
      invariant forall c :: c in nodes ==> c in taken || fresh(O.TagGraph(c))
      decreases |left|
    {
      var k :| k in left;
      var v := m[k];
      var tag := NewTag(k, v);
      ListedSnoc(m, iter, k);
      ValuesSnoc(nodes, tag);
      nodes := nodes + [tag];
      iter := iter + [k];
      left := left - {k};
    }
  }

  lemma ListedInSmaller(m: TagMap, fewer: TagMap, ks: seq<string>)
    requires forall k :: k in ks ==> k in fewer
    requires forall k :: k in fewer ==> k in m && m[k] == fewer[k]
    ensures (forall k :: k in ks ==> k in m) && Listed(m, ks) == Listed(fewer, ks)
  {
  }

  /** fromACKTags empties the map of the ordered keys; the list is never nil. */
  method FromACKTags(tags: AckTagMap, keyOrder: seq<string>) returns (result: Slice<O.Cell?<O.TagStruct>>)
    modifies tags
    ensures result.Some? && NoNil(O.TagListOf(result)) && IsFromAckTags(old(tags.m), keyOrder, Contents(result))
    ensures fresh(O.TagsGraph(result))
    ensures tags.m == old(tags.m) - KeySet(keyOrder)
  {
    ghost var m0 := tags.m;
    var taken := TakeOrdered(tags, keyOrder);
    var nodes, iter := AppendRest(tags.m, taken);
    ListedInSmaller(m0, tags.m, iter);
    assert tags.m.Keys == m0.Keys - KeySet(keyOrder);
    assert FromAckTagsVia(m0, keyOrder, iter, Values(nodes));
    result := Some(nodes);
    assert Contents(result) == Values(nodes);
  }

  /** ignoreSystemTags: keys are deleted from the map while it is being iterated. */
  method IgnoreSystemTags(tags: AckTagMap, systemTags: seq<string>)
    modifies tags
    ensures tags.m == Managed(old(tags.m), systemTags)
  {
    ghost var m0 := tags.m;
    var left := tags.m.Keys;
    while left != {}
      invariant left <= m0.Keys && left <= tags.m.Keys
      invariant tags.m == map k | k in m0 && (k in left || !IsSystem(k, systemTags)) :: m0[k]
      decreases |left|
    {
      var k :| k in left;
      if IsAws(k) || k in systemTags {
        tags.m := tags.m - {k};
      }
      left := left - {k};
    }
  }

  /** a with the aws: tags of b that have been visited. */
  function PartlySynced(a: TagMap, b: TagMap, left: set<string>): TagMap {
    a + map k | k in b && k !in left && IsAws(k) :: b[k]
  }

  lemma SyncStep(a: TagMap, b: TagMap, left: set<string>, k: string)
    requires k in left && k in b
    ensures PartlySynced(a, b, left - {k})
         == if IsAws(k) then PartlySynced(a, b, left)[k := b[k]] else PartlySynced(a, b, left)
  {
    hide IsAws;
  }

  lemma SyncStart(a: TagMap, b: TagMap)
    ensures PartlySynced(a, b, b.Keys) == a && PartlySynced(a, b, {}) == WithAwsOf(a, b)
  {
    hide IsAws;
  }

  /** syncAWSTags; the two maps can be the same, and then nothing changes. */
  method SyncAWSTags(a: AckTagMap, b: AckTagMap)
    modifies a
    ensures a.m == WithAwsOf(old(a.m), old(b.m))
    ensures b != a ==> b.m == old(b.m)
  {
    hide IsAws, PartlySynced, WithAwsOf;
    ghost var a0, b0 := a.m, b.m;
    var left := b.m.Keys;
    SyncStart(a0, b0);
    while left != {}
      invariant left <= b0.Keys && b.m == b0
      invariant a.m == PartlySynced(a0, b0, left)
      decreases |left|
    {
      var k :| k in left;
      SyncStep(a0, b0, left, k);
      if IsAws(k) {
        if a == b {
          assert a.m[k := b.m[k]] == a.m;
        }
        a.m := a.m[k := b.m[k]];
      }
      left := left - {k};
    }
  }

  // ---- on the resource ----

  /** acktags.Merge: the tags of the first map win. */
  method Merge(tags: AckTagMap, defaults: TagMap) returns (merged: AckTagMap)
    ensures fresh(merged) && merged.m == defaults + tags.m
  {
    merged := new AckTagMap(defaults + tags.m);
  }

  method EnsureTags(s: O.SpecNode, defaults: TagMap)
    requires NoNil(O.TagListOf(s.tags))
    modifies s`tags
    ensures s.tags.Some? && NoNil(O.TagListOf(s.tags))
    ensures TagsEnsured(old(Contents(s.tags)), defaults, Contents(s.tags))
    ensures fresh(O.TagsGraph(s.tags))
  {
    var resourceTags, keyOrder := ConvertToOrderedACKTags(s.tags);
    var tags := Merge(resourceTags, defaults);
    s.tags := FromACKTags(tags, keyOrder);
  }

  /** The spec is the same but for its tags. */
  twostate predicate OnlyTagsChanged(s: O.SpecNode)
    reads s
  {
    && s.asgp == old(s.asgp) && s.cluster == old(s.cluster) && s.clusterRef == old(s.clusterRef)
    && s.mip == old(s.mip) && s.name == old(s.name)
  }

  method FilterSystemTags(s: O.SpecNode?, systemTags: seq<string>)
    requires s != null ==> NoNil(O.TagListOf(s.tags))
    modifies s
    ensures s != null ==>
              && OnlyTagsChanged(s)
              && s.tags.Some? && NoNil(O.TagListOf(s.tags))
              && Filtered(old(Contents(s.tags)), systemTags, Contents(s.tags))
              && fresh(O.TagsGraph(s.tags))
  {
    if s == null {
      return;
    }
    var resourceTags, tagKeyOrder := ConvertToOrderedACKTags(s.tags);
    IgnoreSystemTags(resourceTags, systemTags);
    s.tags := FromACKTags(resourceTags, tagKeyOrder);
  }

  /** Only a is written, and its tags are new objects, so b keeps its own. */
  method MirrorAWSTags(a: O.SpecNode?, b: O.SpecNode?)
    requires a != null && b != null ==> NoNil(O.TagListOf(a.tags)) && NoNil(O.TagListOf(b.tags))
    modifies a
    ensures a != null && b == null ==> unchanged(a)
    ensures a != null && b != null ==>
              && OnlyTagsChanged(a)
              && a.tags.Some? && NoNil(O.TagListOf(a.tags))
              && Mirrored(old(Contents(a.tags)), old(Contents(b.tags)), Contents(a.tags))
              && fresh(O.TagsGraph(a.tags))
  {
    if a == null || b == null {
      return;
    }
    var desiredTags, desiredTagKeyOrder := ConvertToOrderedACKTags(a.tags);
    var latestTags, _ := ConvertToOrderedACKTags(b.tags);
    SyncAWSTags(desiredTags, latestTags);
    a.tags := FromACKTags(desiredTags, desiredTagKeyOrder);
  }
}
