/** The tag lists the provider builds and the correction of the tags of a live instance
    (pkg/actuators/machine/instances.go, pkg/actuators/machine/utils.go). */
module Tags {
  import opened Wrappers

  datatype Tag = Tag(key: string, value: string)

  /** A tag as EC2 reports it: either pointer may be nil. */
  datatype InstanceTag = InstanceTag(key: Option<string>, value: Option<string>)

  const CLUSTER_PREFIX := "kubernetes.io/cluster/"
  const NAME_KEY := "Name"
  const OWNED := "owned"

  predicate Reserved(key: string) {
    CLUSTER_PREFIX <= key || key == NAME_KEY
  }

  /** The value of the first tag with the given key. */
  function FirstValue(tags: seq<Tag>, key: string): Option<string> {
    if tags == [] then None
    else if tags[0].key == key then Some(tags[0].value)
    else FirstValue(tags[1..], key)
  }

  function Keys(tags: seq<Tag>): set<string> {
    set t <- tags :: t.key
  }

  predicate UniqueKeys(tags: seq<Tag>) {
    forall i, j :: 0 <= i < j < |tags| ==> tags[i].key != tags[j].key
  }

  // ---- Deduplication ----

  /** The tags whose key occurs nowhere earlier in the list, in order. */
  function Dedup(tags: seq<Tag>): seq<Tag> {
    if tags == [] then []
    else
      var n := |tags| - 1;
      if tags[n].key in Keys(tags[..n]) then Dedup(tags[..n]) else Dedup(tags[..n]) + [tags[n]]
  }

  method RemoveDuplicatedTags(tags: seq<Tag>) returns (result: seq<Tag>)
    ensures result == Dedup(tags)
  {
    var seen: map<string, bool> := map[];
    result := [];
    for i := 0 to |tags|
      invariant result == Dedup(tags[..i])
      invariant seen.Keys == Keys(tags[..i])
    {
      assert tags[..i + 1][..i] == tags[..i];
      assert Keys(tags[..i + 1]) == Keys(tags[..i]) + {tags[i].key};
      if tags[i].key !in seen {
        seen := seen[tags[i].key := true];
        result := result + [tags[i]];
      }
    }
    assert tags[..|tags|] == tags;
  }

  lemma FirstValueOfAppend(a: seq<Tag>, b: seq<Tag>, key: string)
    ensures FirstValue(a + b, key) == if FirstValue(a, key).Some? then FirstValue(a, key) else FirstValue(b, key)
  {
    if a == [] {
      assert a + b == b;
    } else {
      assert (a + b)[1..] == a[1..] + b;
    }
  }

  lemma FirstValueFinds(tags: seq<Tag>, key: string)
    ensures FirstValue(tags, key).Some? <==> key in Keys(tags)
    ensures FirstValue(tags, key).Some? ==> Tag(key, FirstValue(tags, key).value) in tags
  {
    if tags != [] {
      assert forall t :: t in tags <==> t == tags[0] || t in tags[1..];
    }
  }

  /** The position of the first tag with the given key. */
  function FirstIndex(tags: seq<Tag>, key: string): (i: nat)
    requires key in Keys(tags)
    ensures i < |tags| && tags[i].key == key
    ensures forall j :: 0 <= j < i ==> tags[j].key != key
  {
    if tags[0].key == key then 0 else 1 + FirstIndex(tags[1..], key)
  }

  lemma KeysNext(tags: seq<Tag>, t: Tag)
    ensures Keys(tags + [t]) == Keys(tags) + {t.key}
  {
    assert forall x :: x in tags + [t] <==> x in tags || x == t;
  }

  /** Deduplication keeps exactly one entry per key. */
  lemma {:induction false} DedupKeys(tags: seq<Tag>)
    ensures UniqueKeys(Dedup(tags))
    ensures Keys(Dedup(tags)) == Keys(tags)
  {
    if tags != [] {
      var rest, last := tags[..|tags| - 1], tags[|tags| - 1];
      var kept := Dedup(rest);
      DedupKeys(rest);
      assert tags == rest + [last];
      KeysNext(rest, last);
      KeysNext(kept, last);
      forall i | 0 <= i < |kept| ensures kept[i].key in Keys(kept) {
        assert kept[i] in kept;
      }
      hide Keys;
    }
  }

  /** The entry it keeps for a key is the first one. */
  lemma {:induction false} DedupValue(tags: seq<Tag>, key: string)
    ensures FirstValue(Dedup(tags), key) == FirstValue(tags, key)
  {
    if tags != [] {
      var rest, last := tags[..|tags| - 1], tags[|tags| - 1];
      DedupValue(rest, key);
      assert tags == rest + [last];
      FirstValueOfAppend(rest, [last], key);
      FirstValueOfAppend(Dedup(rest), [last], key);
      FirstValueFinds(rest, key);
    }
  }

  /** Deduplication keeps first occurrences in their order. */
  lemma {:induction false} DedupOrder(tags: seq<Tag>, i: nat, j: nat)
    requires i < j < |Dedup(tags)|
    ensures Dedup(tags)[i].key in Keys(tags) && Dedup(tags)[j].key in Keys(tags)
    ensures FirstIndex(tags, Dedup(tags)[i].key) < FirstIndex(tags, Dedup(tags)[j].key)
  {
    var rest, last := tags[..|tags| - 1], tags[|tags| - 1];
    DedupKeys(rest);
    assert tags == rest + [last];
    var deduped := Dedup(rest);
    assert deduped[i] in deduped;
    FirstIndexExtends(rest, tags, deduped[i].key);
    if j < |deduped| {
      DedupOrder(rest, i, j);
      assert deduped[j] in deduped;
      FirstIndexExtends(rest, tags, deduped[j].key);
    } else {
      assert last in tags && last.key !in Keys(rest);
      FirstIndexUnique(tags, last.key, |rest|);
    }
  }

  lemma FirstIndexUnique(tags: seq<Tag>, key: string, i: nat)
    requires i < |tags| && tags[i].key == key
    requires key !in Keys(tags[..i])
    ensures key in Keys(tags) && FirstIndex(tags, key) == i
  {
    assert tags[i] in tags;
    forall j | 0 <= j < i
      ensures tags[j].key != key
    {
      assert tags[..i][j] in tags[..i];
    }
  }

  lemma FirstIndexExtends(a: seq<Tag>, b: seq<Tag>, key: string)
    requires a <= b && key in Keys(a)
    ensures key in Keys(b) && FirstIndex(b, key) == FirstIndex(a, key)
  {
    var i := FirstIndex(a, key);
    assert b[i] == a[i];
    forall t | t in b[..i] ensures t.key != key {
      var j :| 0 <= j < i && b[..i][j] == t;
      assert a[j] == b[j];
    }
    FirstIndexUnique(b, key, i);
  }

  // ---- The tag list of a machine ----

  /** Machine tags come first, so that they win over the infrastructure's. */
  function MergedTags(machineTags: seq<Tag>, infraTags: Option<seq<Tag>>): seq<Tag> {
    if infraTags.None? then machineTags else machineTags + infraTags.value
  }

  function Unreserved(tags: seq<Tag>): seq<Tag> {
    if tags == [] then []
    else
      var n := |tags| - 1;
      if Reserved(tags[n].key) then Unreserved(tags[..n]) else Unreserved(tags[..n]) + [tags[n]]
  }

  function OwnTags(machineName: string, clusterID: string): seq<Tag> {
    [Tag(CLUSTER_PREFIX + clusterID, OWNED), Tag(NAME_KEY, machineName)]
  }

  function TagList(machineName: string, clusterID: string, machineTags: seq<Tag>,
                   infraTags: Option<seq<Tag>>): seq<Tag> {
    Dedup(Unreserved(MergedTags(machineTags, infraTags)) + OwnTags(machineName, clusterID))
  }

  method BuildTagList(machineName: string, clusterID: string, machineTags: seq<Tag>, infraTags: Option<seq<Tag>>)
    returns (result: seq<Tag>)
    ensures result == TagList(machineName, clusterID, machineTags, infraTags)
  {
    var merged := machineTags;
    if infraTags.Some? {
      merged := [] + machineTags;
      for i := 0 to |infraTags.value|
        invariant merged == machineTags + infraTags.value[..i]
      {
        merged := merged + [infraTags.value[i]];
      }
      assert infraTags.value[..|infraTags.value|] == infraTags.value;
    }
    var raw: seq<Tag> := [];
    for i := 0 to |merged|
      invariant raw == Unreserved(merged[..i])
    {
      assert merged[..i + 1][..i] == merged[..i];
      if !(CLUSTER_PREFIX <= merged[i].key) && merged[i].key != NAME_KEY {
        raw := raw + [merged[i]];
      }
    }
    assert merged[..|merged|] == merged;
    raw := raw + OwnTags(machineName, clusterID);
    result := RemoveDuplicatedTags(raw);
  }

  lemma {:induction false} UnreservedMeaning(tags: seq<Tag>)
    ensures forall key :: FirstValue(Unreserved(tags), key) == if Reserved(key) then None else FirstValue(tags, key)
  {
    if tags != [] {
      var n := |tags| - 1;
      UnreservedMeaning(tags[..n]);
      assert tags == tags[..n] + [tags[n]];
      forall key
        ensures FirstValue(Unreserved(tags), key) == if Reserved(key) then None else FirstValue(tags, key)
      {
        FirstValueOfAppend(tags[..n], [tags[n]], key);
        FirstValueOfAppend(Unreserved(tags[..n]), [tags[n]], key);
      }
    }
  }

  /** What a key ends up as: the two own tags, then the machine's first value, then the infrastructure's. */
  function ExpectedValue(machineName: string, clusterID: string, machineTags: seq<Tag>, infraTags: Option<seq<Tag>>,
                         key: string): Option<string> {
    if key == CLUSTER_PREFIX + clusterID then Some(OWNED)
    else if key == NAME_KEY then Some(machineName)
    else if Reserved(key) then None
    else if FirstValue(machineTags, key).Some? then FirstValue(machineTags, key)
    else FirstValue(infraTags.GetOr([]), key)
  }

  lemma TagListMeaning(machineName: string, clusterID: string, machineTags: seq<Tag>, infraTags: Option<seq<Tag>>)
    ensures var list := TagList(machineName, clusterID, machineTags, infraTags);
      && UniqueKeys(list)
      && (forall key :: FirstValue(list, key) == ExpectedValue(machineName, clusterID, machineTags, infraTags, key))
  {
    var merged := MergedTags(machineTags, infraTags);
    var own := OwnTags(machineName, clusterID);
    DedupKeys(Unreserved(merged) + own);
    forall key
      ensures FirstValue(TagList(machineName, clusterID, machineTags, infraTags), key)
           == ExpectedValue(machineName, clusterID, machineTags, infraTags, key)
    {
      UnreservedMeaning(merged);
      DedupValue(Unreserved(merged) + own, key);
      FirstValueOfAppend(Unreserved(merged), own, key);
      FirstValueOfAppend(machineTags, infraTags.GetOr([]), key);
      assert machineTags + [] == machineTags;
      OwnTagValues(machineName, clusterID, key);
    }
  }

  lemma OwnTagValues(machineName: string, clusterID: string, key: string)
    ensures FirstValue(OwnTags(machineName, clusterID), key) ==
      if key == CLUSTER_PREFIX + clusterID then Some(OWNED) else if key == NAME_KEY then Some(machineName) else None
  {
    var own := OwnTags(machineName, clusterID);
    assert own == [own[0]] + [own[1]];
    FirstValueOfAppend([own[0]], [own[1]], key);
    assert [own[0]][1..] == [] && [own[1]][1..] == [];
  }

  /** Entries keep the order of their first occurrence in the merged list; the two own tags come last. */
  lemma TagListOrder(machineName: string, clusterID: string, machineTags: seq<Tag>, infraTags: Option<seq<Tag>>,
                     i: nat, j: nat)
    requires i < j < |TagList(machineName, clusterID, machineTags, infraTags)|
    requires !Reserved(TagList(machineName, clusterID, machineTags, infraTags)[j].key)
    ensures var list := TagList(machineName, clusterID, machineTags, infraTags);
      var merged := MergedTags(machineTags, infraTags);
      && list[i].key in Keys(merged) && list[j].key in Keys(merged)
      && FirstIndex(merged, list[i].key) < FirstIndex(merged, list[j].key)
  {
    var merged := MergedTags(machineTags, infraTags);
    var kept, own := Unreserved(merged), OwnTags(machineName, clusterID);
    var raw := kept + own;
    var k1, k2 := Dedup(raw)[i].key, Dedup(raw)[j].key;
    DedupOrder(raw, i, j);
    var a, b := FirstIndex(raw, k1), FirstIndex(raw, k2);
    assert forall x :: |kept| <= x < |raw| ==> Reserved(raw[x].key);
    assert a < b < |kept|;
    assert kept[a] in kept && kept[b] in kept;
    FirstIndexExtends(kept, raw, k1);
    FirstIndexExtends(kept, raw, k2);
    UnreservedOrder(merged, k1, k2);
  }

  lemma {:induction false} UnreservedOrder(tags: seq<Tag>, k1: string, k2: string)
    requires k1 in Keys(Unreserved(tags)) && k2 in Keys(Unreserved(tags))
    requires FirstIndex(Unreserved(tags), k1) < FirstIndex(Unreserved(tags), k2)
    ensures k1 in Keys(tags) && k2 in Keys(tags) && FirstIndex(tags, k1) < FirstIndex(tags, k2)
  {
    var rest, last := tags[..|tags| - 1], tags[|tags| - 1];
    var kept := Unreserved(rest);
    assert tags == rest + [last];
    UnreservedKeys(rest, k1);
    UnreservedKeys(rest, k2);
    assert Unreserved(tags) == kept || Unreserved(tags) == kept + [last];
    var i := FirstIndex(Unreserved(tags), k1);
    assert i < |kept| && kept[i] in kept;
    FirstIndexExtends(rest, tags, k1);
    FirstIndexExtends(kept, Unreserved(tags), k1);
    if k2 in Keys(kept) {
      FirstIndexExtends(rest, tags, k2);
      FirstIndexExtends(kept, Unreserved(tags), k2);
      UnreservedOrder(rest, k1, k2);
    } else {
      assert last.key == k2;
      FirstIndexUnique(tags, k2, |rest|);
    }
  }

  lemma UnreservedKeys(tags: seq<Tag>, key: string)
    ensures key in Keys(Unreserved(tags)) <==> key in Keys(tags) && !Reserved(key)
  {
    UnreservedMeaning(tags);
    FirstValueFinds(tags, key);
    FirstValueFinds(Unreserved(tags), key);
  }

  /** The same in letters: the two own tags, and no other key that begins like a cluster tag. */
  lemma TagListInLetters(machineName: string, clusterID: string, machineTags: seq<Tag>, infraTags: Option<seq<Tag>>,
                         key: string)
    ensures var list := TagList(machineName, clusterID, machineTags, infraTags);
      && FirstValue(list, "Name") == Some(machineName)
      && FirstValue(list, "kubernetes.io/cluster/" + clusterID) == Some("owned")
      && ("kubernetes.io/cluster/" <= key && key != "kubernetes.io/cluster/" + clusterID ==>
            FirstValue(list, key) == None)
      && (!("kubernetes.io/cluster/" <= key) && key != "Name" ==>
            FirstValue(list, key) ==
              if FirstValue(machineTags, key).Some? then FirstValue(machineTags, key)
              else if infraTags.Some? then FirstValue(infraTags.value, key) else None)
  {
    TagListMeaning(machineName, clusterID, machineTags, infraTags);
    assert "kubernetes.io/cluster/" + clusterID != "Name" by {
      assert ("kubernetes.io/cluster/" + clusterID)[0] == 'k';
    }
    hide TagList, FirstValue;
    FirstValueOfNothing(key);
  }

  lemma FirstValueOfNothing(key: string)
    ensures FirstValue([], key) == None
  {
  }
}
