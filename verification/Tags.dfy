/** The tag conversions of pkg/resource/capacity_provider/tags.go and the tag operations of
    manager.go, on values. A Go map's iteration order is arbitrary, so the list made from a
    map is given by a relation. TagMethods.dfy does the same on mutable maps. */
module Tags {
  import opened ApiTypes

  type TagMap = map<string, string>

  /** The tags of a list without nil elements; a nil element is dereferenced by every caller. */
  function TagsOf(l: TagList): (ts: seq<Tag>)
    requires NoNil(l)
    ensures |ts| == |Elements(l)| && forall i :: 0 <= i < |ts| ==> Elements(l)[i] == Some(ts[i])
  {
    seq(|Elements(l)|, i requires 0 <= i < |Elements(l)| => Elements(l)[i].value)
  }

  function ValueOf(t: Tag): string {
    if t.value.Some? then t.value.value else ""
  }

  /** The map of convertToOrderedACKTags: nil keys skipped, nil values "", the last duplicate wins. */
  function AckTags(ts: seq<Tag>): TagMap {
    if ts == [] then map[]
    else
      var init, t := AckTags(ts[..|ts| - 1]), ts[|ts| - 1];
      if t.key.Some? then init[t.key.value := ValueOf(t)] else init
  }

  /** The key order of convertToOrderedACKTags. */
  function KeyOrder(ts: seq<Tag>): seq<string> {
    if ts == [] then []
    else
      var init, t := KeyOrder(ts[..|ts| - 1]), ts[|ts| - 1];
      if t.key.Some? then init + [t.key.value] else init
  }

  function KeySet(ks: seq<string>): set<string> {
    set k | k in ks
  }

  /** The keys of ks that are in keep, each at its first occurrence. */
  function Firsts(ks: seq<string>, keep: set<string>): seq<string> {
    if ks == [] then []
    else
      var init, k := ks[..|ks| - 1], ks[|ks| - 1];
      Firsts(init, keep) + if k in keep && k !in init then [k] else []
  }

  /** The tags of m for the given keys. */
  function Listed(m: TagMap, ks: seq<string>): seq<Tag>
    requires forall k :: k in ks ==> k in m
  {
    seq(|ks|, i requires 0 <= i < |ks| => Tag(Some(ks[i]), Some(m[ks[i]])))
  }

  /** An order in which a Go loop can visit the keys of a map. */
  ghost predicate Visits(iter: seq<string>, keys: set<string>) {
    Distinct(iter) && forall k :: k in iter <==> k in keys
  }

  lemma {:induction false} FirstsMeans(ks: seq<string>, keep: set<string>)
    ensures forall k :: k in Firsts(ks, keep) <==> k in ks && k in keep
    ensures Distinct(Firsts(ks, keep))
  {
    if ks != [] {
      var init, k := ks[..|ks| - 1], ks[|ks| - 1];
      FirstsMeans(init, keep);
      assert ks == init + [k];
    }
  }

  /** r is a result of fromACKTags: the ordered keys first, then the other keys of the map in
      some order. */
  ghost predicate IsFromAckTags(m: TagMap, ks: seq<string>, r: seq<Tag>) {
    exists iter :: Visits(iter, m.Keys - KeySet(ks)) && FromAckTagsVia(m, ks, iter, r)
  }

  ghost predicate FromAckTagsVia(m: TagMap, ks: seq<string>, iter: seq<string>, r: seq<Tag>) {
    && (forall k :: k in iter ==> k in m)
    && (forall k :: k in Firsts(ks, m.Keys) ==> k in m)
    && r == Listed(m, Firsts(ks, m.Keys)) + Listed(m, iter)
  }

  // ---- list to map and back ----

  lemma {:induction false} ListedRoundTrip(m: TagMap, ks: seq<string>)
    requires forall k :: k in ks ==> k in m
    ensures KeyOrder(Listed(m, ks)) == ks
    ensures AckTags(Listed(m, ks)) == map k | k in ks :: m[k]
  {
    if ks != [] {
      var init := ks[..|ks| - 1];
      assert ks == init + [ks[|ks| - 1]];
      ListedRoundTrip(m, init);
      var r := Listed(m, ks);
      assert r[..|r| - 1] == Listed(m, init);
      assert r[|r| - 1] == Tag(Some(ks[|ks| - 1]), Some(m[ks[|ks| - 1]]));
    }
  }

  lemma ListedOfConcat(m: TagMap, a: seq<string>, b: seq<string>)
    requires forall k :: k in a + b ==> k in m
    ensures (forall k :: k in a ==> k in m) && (forall k :: k in b ==> k in m)
    ensures Listed(m, a) + Listed(m, b) == Listed(m, a + b)
  {
  }

  /** A result of fromACKTags lists the map in some order that starts with the ordered keys. */
  lemma FromAckTagsIsListed(m: TagMap, ks: seq<string>, r: seq<Tag>) returns (rest: seq<string>)
    requires IsFromAckTags(m, ks, r)
    ensures var all := Firsts(ks, m.Keys) + rest;
            && Distinct(all)
            && (forall k :: k in all <==> k in m)
            && r == Listed(m, all)
    ensures forall k :: k in rest <==> k in m && k !in ks
  {
    rest :| Visits(rest, m.Keys - KeySet(ks)) && FromAckTagsVia(m, ks, rest, r);
    FirstsMeans(ks, m.Keys);
    var all := Firsts(ks, m.Keys) + rest;
    forall k
      ensures k in all <==> k in m
    {
      assert k in all <==> k in Firsts(ks, m.Keys) || k in rest;
    }
    forall i, j | 0 <= i < j < |all|
      ensures all[i] != all[j]
    {
      if i < |Firsts(ks, m.Keys)| <= j {
        assert all[i] in Firsts(ks, m.Keys) && all[j] in rest;
      }
    }
    ListedOfConcat(m, Firsts(ks, m.Keys), rest);
  }

  /** The ordered keys come first, in first-occurrence order, no key comes twice, and the
      list converts back to exactly the map. */
  lemma FromAckTagsMeans(m: TagMap, ks: seq<string>, r: seq<Tag>)
    requires IsFromAckTags(m, ks, r)
    ensures Distinct(KeyOrder(r)) && |KeyOrder(r)| == |r|
    ensures Firsts(ks, m.Keys) <= KeyOrder(r)
    ensures AckTags(r) == m
    ensures forall k :: k in KeyOrder(r) <==> k in m
  {
    var rest := FromAckTagsIsListed(m, ks, r);
    var all := Firsts(ks, m.Keys) + rest;
    ListedRoundTrip(m, all);
    assert (map k | k in all :: m[k]) == m;
  }

  lemma EmptyOrInhabited(s: seq<string>)
    ensures s == [] || s[0] in s
  {
  }

  /** With no key to append the result does not depend on the iteration order. */
  lemma FromAckTagsIsUnique(m: TagMap, ks: seq<string>, r: seq<Tag>)
    requires forall k :: k in m ==> k in ks
    requires IsFromAckTags(m, ks, r)
    ensures (forall k :: k in Firsts(ks, m.Keys) ==> k in m) && r == Listed(m, Firsts(ks, m.Keys))
  {
    FirstsMeans(ks, m.Keys);
    var rest := FromAckTagsIsListed(m, ks, r);
    EmptyOrInhabited(rest);
    assert Firsts(ks, m.Keys) + [] == Firsts(ks, m.Keys);
  }

  lemma {:induction false} KeysOfAckTags(ts: seq<Tag>)
    ensures forall k :: k in KeyOrder(ts) <==> k in AckTags(ts)
  {
    if ts != [] {
      KeysOfAckTags(ts[..|ts| - 1]);
    }
  }

  /** The last tag of its key. */
  ghost predicate IsLastOfKey(ts: seq<Tag>, i: int) {
    && 0 <= i < |ts| && ts[i].key.Some?
    && forall j :: i < j < |ts| ==> ts[j].key != ts[i].key
  }

  lemma {:induction false} LastOfKeyIsIn(ts: seq<Tag>, i: int)
    requires IsLastOfKey(ts, i)
    ensures ts[i].key.value in AckTags(ts)
    ensures AckTags(ts)[ts[i].key.value] == if ts[i].value.Some? then ts[i].value.value else ""
  {
    if i < |ts| - 1 {
      assert IsLastOfKey(ts[..|ts| - 1], i);
      LastOfKeyIsIn(ts[..|ts| - 1], i);
    }
  }

  lemma {:induction false} KeyHasLast(ts: seq<Tag>, k: string) returns (i: int)
    requires k in AckTags(ts)
    ensures IsLastOfKey(ts, i) && ts[i].key == Some(k)
  {
    i := |ts| - 1;
    if ts[i].key != Some(k) {
      i := KeyHasLast(ts[..|ts| - 1], k);
    }
  }

  /** The map of a list holds the last value of every key, "" for a nil value, and nothing else. */
  lemma AckTagsMeans(ts: seq<Tag>)
    ensures forall i :: IsLastOfKey(ts, i) ==>
              && ts[i].key.value in AckTags(ts)
              && AckTags(ts)[ts[i].key.value] == if ts[i].value.Some? then ts[i].value.value else ""
    ensures forall k :: k in AckTags(ts) <==> exists i :: IsLastOfKey(ts, i) && ts[i].key == Some(k)
  {
    forall i | IsLastOfKey(ts, i)
      ensures ts[i].key.value in AckTags(ts)
      ensures AckTags(ts)[ts[i].key.value] == if ts[i].value.Some? then ts[i].value.value else ""
    {
      LastOfKeyIsIn(ts, i);
    }
    forall k | k in AckTags(ts)
      ensures exists i :: IsLastOfKey(ts, i) && ts[i].key == Some(k)
    {
      var i := KeyHasLast(ts, k);
    }
  }

  /** Every tag has a key and a value and no key comes twice. */
  ghost predicate Plain(ts: seq<Tag>) {
    && (forall i :: 0 <= i < |ts| ==> ts[i].key.Some? && ts[i].value.Some?)
    && (forall i, j :: 0 <= i < j < |ts| ==> ts[i].key != ts[j].key)
  }

  lemma {:induction false} PlainKeys(ts: seq<Tag>)
    requires Plain(ts)
    ensures |KeyOrder(ts)| == |ts|
    ensures forall i :: 0 <= i < |ts| ==> ts[i].key == Some(KeyOrder(ts)[i])
  {
    if ts != [] {
      PlainKeys(ts[..|ts| - 1]);
    }
  }

  lemma {:induction false} PlainValues(ts: seq<Tag>, i: int)
    requires Plain(ts) && 0 <= i < |ts|
    ensures ts[i].key.value in AckTags(ts) && AckTags(ts)[ts[i].key.value] == ts[i].value.value
  {
    if i < |ts| - 1 {
      PlainValues(ts[..|ts| - 1], i);
    }
  }

  lemma {:induction false} FirstsOfDistinct(ks: seq<string>, keep: set<string>)
    requires Distinct(ks) && forall k :: k in ks ==> k in keep
    ensures Firsts(ks, keep) == ks
  {
    if ks != [] {
      var init := ks[..|ks| - 1];
      FirstsOfDistinct(init, keep);
      assert ks == init + [ks[|ks| - 1]];
    }
  }

  /** On a plain list the two conversions are inverse, as lists. */
  lemma PlainRoundTrip(ts: seq<Tag>, r: seq<Tag>)
    requires Plain(ts)
    requires IsFromAckTags(AckTags(ts), KeyOrder(ts), r)
    ensures r == ts
  {
    PlainKeys(ts);
    KeysOfAckTags(ts);
    FirstsOfDistinct(KeyOrder(ts), AckTags(ts).Keys);
    FromAckTagsIsUnique(AckTags(ts), KeyOrder(ts), r);
    forall i | 0 <= i < |ts|
      ensures r[i] == ts[i]
    {
      PlainValues(ts, i);
    }
  }

  // ---- filtering and mirroring ----

  predicate IsAws(k: string) {
    "aws:" <= k
  }

  predicate IsSystem(k: string, systemTags: seq<string>) {
    IsAws(k) || k in systemTags
  }

  /** ignoreSystemTags. */
  function Managed(m: TagMap, systemTags: seq<string>): TagMap {
    map k | k in m && !IsSystem(k, systemTags) :: m[k]
  }

  /** syncAWSTags: the aws: tags of b written over a. */
  function WithAwsOf(a: TagMap, b: TagMap): TagMap {
    a + map k | k in b && IsAws(k) :: b[k]
  }

  /** FilterSystemTags. */
  ghost predicate Filtered(ts: seq<Tag>, systemTags: seq<string>, r: seq<Tag>) {
    IsFromAckTags(Managed(AckTags(ts), systemTags), KeyOrder(ts), r)
  }

  /** mirrorAWSTags: what becomes of the desired tags. */
  ghost predicate Mirrored(desired: seq<Tag>, latest: seq<Tag>, r: seq<Tag>) {
    IsFromAckTags(WithAwsOf(AckTags(desired), AckTags(latest)), KeyOrder(desired), r)
  }

  /** EnsureTags: the controller tags are added and never override a tag. */
  ghost predicate TagsEnsured(ts: seq<Tag>, defaults: TagMap, r: seq<Tag>) {
    IsFromAckTags(defaults + AckTags(ts), KeyOrder(ts), r)
  }

  predicate StartsWithAws(k: string) {
    |k| >= 4 && k[0] == 'a' && k[1] == 'w' && k[2] == 's' && k[3] == ':'
  }

  lemma AwsMeans()
    ensures forall k :: IsAws(k) <==> StartsWithAws(k)
  {
    forall k
      ensures IsAws(k) <==> StartsWithAws(k)
    {
      if StartsWithAws(k) {
        assert k[..4] == "aws:";
      }
    }
  }

  lemma ManagedAt(m: TagMap, systemTags: seq<string>)
    ensures forall k :: Find(Managed(m, systemTags), k)
              == if StartsWithAws(k) || k in systemTags then None else Find(m, k)
  {
    AwsMeans();
    hide IsAws, StartsWithAws;
  }

  /** What filtering leaves: the tags that are not system tags, each key at its first
      occurrence with its last value. No iteration order is left in it. */
  lemma FilterMeans(ts: seq<Tag>, systemTags: seq<string>, r: seq<Tag>)
    requires Filtered(ts, systemTags, r)
    ensures var m := Managed(AckTags(ts), systemTags);
            && (forall k :: k in Firsts(KeyOrder(ts), m.Keys) ==> k in m)
            && r == Listed(m, Firsts(KeyOrder(ts), m.Keys))
            && AckTags(r) == m
    ensures forall k :: Find(AckTags(r), k)
              == if StartsWithAws(k) || k in systemTags then None else Find(AckTags(ts), k)
  {
    var m := Managed(AckTags(ts), systemTags);
    ManagedAt(AckTags(ts), systemTags);
    assert m.Keys <= AckTags(ts).Keys;
    hide Managed, Find, AckTags, KeyOrder, Firsts, Listed, IsFromAckTags;
    KeysOfAckTags(ts);
    FromAckTagsIsUnique(m, KeyOrder(ts), r);
    FromAckTagsMeans(m, KeyOrder(ts), r);
  }

  lemma FilterIsIdempotent(ts: seq<Tag>, systemTags: seq<string>, r: seq<Tag>, again: seq<Tag>)
    requires Filtered(ts, systemTags, r)
    requires Filtered(r, systemTags, again)
    ensures again == r
  {
    var m := Managed(AckTags(ts), systemTags);
    FilterMeans(ts, systemTags, r);
    FilterMeans(r, systemTags, again);
    assert Managed(AckTags(r), systemTags) == m;
    FromAckTagsMeans(m, KeyOrder(ts), r);
    FirstsOfDistinct(KeyOrder(r), m.Keys);
    FirstsMeans(KeyOrder(ts), m.Keys);
    ListedRoundTrip(m, Firsts(KeyOrder(ts), m.Keys));
  }

  lemma {:induction false} FirstsOfConcat(a: seq<string>, b: seq<string>, keep: set<string>)
    requires forall k :: k in b ==> k !in keep
    ensures Firsts(a + b, keep) == Firsts(a, keep)
  {
    if b == [] {
      assert a + b == a;
    } else {
      assert (a + b)[..|a + b| - 1] == a + b[..|b| - 1];
      FirstsOfConcat(a, b[..|b| - 1], keep);
    }
  }

  lemma {:induction false} FirstsOfFirsts(ks: seq<string>, keep: set<string>, fewer: set<string>)
    requires fewer <= keep
    ensures Firsts(Firsts(ks, keep), fewer) == Firsts(ks, fewer)
  {
    if ks != [] {
      var init, k := ks[..|ks| - 1], ks[|ks| - 1];
      FirstsOfFirsts(init, keep, fewer);
      FirstsMeans(init, keep);
      if k in keep && k !in init {
        var fs := Firsts(ks, keep);
        assert fs[..|fs| - 1] == Firsts(init, keep) && fs[|fs| - 1] == k;
      } else {
        assert Firsts(ks, keep) == Firsts(init, keep);
      }
    }
  }

  /** What mirroring makes of the desired tags: the aws: tags of latest, and otherwise the tags
      that were there. */
  lemma MirroredMeans(desired: seq<Tag>, latest: seq<Tag>, mirrored: seq<Tag>)
    requires Mirrored(desired, latest, mirrored)
    ensures forall k :: Find(AckTags(mirrored), k)
              == if StartsWithAws(k) && k in AckTags(latest) then Find(AckTags(latest), k)
                 else Find(AckTags(desired), k)
  {
    FromAckTagsMeans(WithAwsOf(AckTags(desired), AckTags(latest)), KeyOrder(desired), mirrored);
    AwsMeans();
    FindWithAws(AckTags(desired), AckTags(latest));
    hide IsAws, StartsWithAws, WithAwsOf, AckTags, KeyOrder, IsFromAckTags;
  }

  /** Mirroring is invisible after filtering: the same list comes out with it as without it. */
  lemma MirrorIsInvisible(desired: seq<Tag>, latest: seq<Tag>, systemTags: seq<string>,
                          mirrored: seq<Tag>, r: seq<Tag>, plain: seq<Tag>)
    requires Mirrored(desired, latest, mirrored)
    requires Filtered(mirrored, systemTags, r)
    requires Filtered(desired, systemTags, plain)
    ensures r == plain
  {
    var m := Managed(AckTags(desired), systemTags);
    ManagedOfSynced(AckTags(desired), AckTags(latest), systemTags);
    FromAckTagsMeans(WithAwsOf(AckTags(desired), AckTags(latest)), KeyOrder(desired), mirrored);
    FilterMeans(mirrored, systemTags, r);
    FilterMeans(desired, systemTags, plain);
    KeysOfAckTags(desired);
    OrderAfter(WithAwsOf(AckTags(desired), AckTags(latest)), KeyOrder(desired), mirrored, m.Keys);
    hide WithAwsOf, AckTags, KeyOrder, Firsts, Listed, IsFromAckTags;
  }

  lemma ManagedOfSynced(a: TagMap, b: TagMap, systemTags: seq<string>)
    ensures Managed(WithAwsOf(a, b), systemTags) == Managed(a, systemTags)
    ensures Managed(a, systemTags).Keys <= a.Keys && a.Keys <= WithAwsOf(a, b).Keys
  {
    hide IsAws;
  }

  /** Among the ordered keys, a result of fromACKTags keeps their order. */
  lemma OrderAfter(m: TagMap, ks: seq<string>, r: seq<Tag>, keep: set<string>)
    requires IsFromAckTags(m, ks, r)
    requires keep <= m.Keys && forall k :: k in keep ==> k in ks
    ensures Firsts(KeyOrder(r), keep) == Firsts(ks, keep)
  {
    var rest := FromAckTagsIsListed(m, ks, r);
    hide KeyOrder, AckTags, IsFromAckTags;
    ListedRoundTrip(m, Firsts(ks, m.Keys) + rest);
    FirstsOfConcat(Firsts(ks, m.Keys), rest, keep);
    FirstsOfFirsts(ks, m.Keys, keep);
  }

  /** The delta's test on tags. */
  predicate TagsDiffer(a: seq<Tag>, b: seq<Tag>) {
    AckTags(a) != AckTags(b)
  }

  function Find(m: TagMap, k: string): Option<string> {
    if k in m then Some(m[k]) else None
  }

  lemma MapsDifferAtAKey(a: TagMap, b: TagMap)
    ensures a != b <==> exists k :: Find(a, k) != Find(b, k)
  {
    if forall k :: Find(a, k) == Find(b, k) {
      forall k
        ensures k in a <==> k in b
        ensures k in a ==> a[k] == b[k]
      {
        assert Find(a, k) == Find(b, k);
      }
      assert a == b;
    }
  }

  lemma FindWithAws(d: TagMap, l: TagMap)
    ensures forall k :: Find(WithAwsOf(d, l), k) == if IsAws(k) && k in l then Find(l, k) else Find(d, k)
  {
  }

  /** After mirroring, the tags differ from latest exactly where the two differed on a key
      that is not an aws: key of latest. */
  lemma MirroredDiffersIff(desired: seq<Tag>, latest: seq<Tag>, mirrored: seq<Tag>)
    requires Mirrored(desired, latest, mirrored)
    ensures TagsDiffer(mirrored, latest)
       <==> exists k :: !(IsAws(k) && k in AckTags(latest)) && Find(AckTags(desired), k) != Find(AckTags(latest), k)
  {
    var d, l := AckTags(desired), AckTags(latest);
    var w := WithAwsOf(d, l);
    FromAckTagsMeans(w, KeyOrder(desired), mirrored);
    MapsDifferAtAKey(w, l);
    FindWithAws(d, l);
    if w != l {
      var k :| Find(w, k) != Find(l, k);
      assert !(IsAws(k) && k in l) && Find(d, k) != Find(l, k);
    }
    if k :| !(IsAws(k) && k in l) && Find(d, k) != Find(l, k) {
      assert Find(w, k) != Find(l, k);
    }
  }

  /** The user's tags survive EnsureTags, and a second EnsureTags changes nothing. */
  lemma EnsureTagsMeans(ts: seq<Tag>, defaults: TagMap, r: seq<Tag>, again: seq<Tag>)
    requires TagsEnsured(ts, defaults, r)
    requires TagsEnsured(r, defaults, again)
    ensures forall k :: Find(AckTags(r), k) == if k in AckTags(ts) then Find(AckTags(ts), k) else Find(defaults, k)
    ensures again == r
  {
    var m := defaults + AckTags(ts);
    FromAckTagsMeans(m, KeyOrder(ts), r);
    assert defaults + AckTags(r) == m;
    FromAckTagsIsUnique(m, KeyOrder(r), again);
    FirstsOfDistinct(KeyOrder(r), m.Keys);
    var rest := FromAckTagsIsListed(m, KeyOrder(ts), r);
    ListedRoundTrip(m, Firsts(KeyOrder(ts), m.Keys) + rest);
  }
}
