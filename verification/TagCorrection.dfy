/** Bringing the tags of a live instance in line with the wanted list (pkg/actuators/machine/utils.go). */
module TagCorrection {
  import opened Wrappers
  import opened Tags

  /** The wanted tags as a map: assignments in list order. */
  function Desired(tags: seq<Tag>): map<string, string> {
    if tags == [] then map[]
    else
      var n := |tags| - 1;
      Desired(tags[..n])[tags[n].key := tags[n].value]
  }

  predicate Carries(instanceTags: seq<InstanceTag>, key: string, value: string) {
    InstanceTag(Some(key), Some(value)) in instanceTags
  }

  /** The wanted tags that the instance lacks or has with another value. */
  function Missing(desired: map<string, string>, instanceTags: seq<InstanceTag>): map<string, string> {
    map k | k in desired && !Carries(instanceTags, k, desired[k]) :: desired[k]
  }

  function Entries(m: map<string, string>): set<Tag> {
    set k | k in m :: Tag(k, m[k])
  }

  /** What one CreateTags request carries. Go iterates a map to build it, so only the multiset is determined.
      The two own tags are repeated when either of them is not right. */
  function Needed(machineName: string, clusterID: string, wanted: seq<Tag>,
                  instanceTags: seq<InstanceTag>): multiset<Tag> {
    multiset(Entries(Missing(Desired(wanted), instanceTags))) +
    if Carries(instanceTags, NAME_KEY, machineName) && Carries(instanceTags, CLUSTER_PREFIX + clusterID, OWNED)
    then multiset{}
    else multiset(OwnTags(machineName, clusterID))
  }

  lemma CarriesNext(instanceTags: seq<InstanceTag>, tag: InstanceTag, key: string, value: string)
    ensures Carries(instanceTags + [tag], key, value) <==>
            Carries(instanceTags, key, value) || (tag.key == Some(key) && tag.value == Some(value))
  {
    var wanted := InstanceTag(Some(key), Some(value));
    assert wanted in instanceTags + [tag] <==> wanted in instanceTags || wanted == tag;
  }

  lemma MissingNext(desired: map<string, string>, instanceTags: seq<InstanceTag>, tag: InstanceTag)
    ensures
      var missing := Missing(desired, instanceTags);
      Missing(desired, instanceTags + [tag]) ==
        if tag.key.Some? && tag.key.value in missing && tag.value == Some(missing[tag.key.value])
        then missing - {tag.key.value} else missing
  {
    forall k | k in desired
      ensures Carries(instanceTags + [tag], k, desired[k]) <==>
              Carries(instanceTags, k, desired[k]) || (tag.key == Some(k) && tag.value == Some(desired[k]))
    {
      CarriesNext(instanceTags, tag, k, desired[k]);
    }
  }

  method TagsToAdd(machineName: string, clusterID: string, wanted: seq<Tag>, instanceTags: seq<InstanceTag>)
    returns (toAdd: seq<Tag>)
    ensures multiset(toAdd) == Needed(machineName, clusterID, wanted, instanceTags)
  {
    var tags: map<string, string> := map[];
    for i := 0 to |wanted|
      invariant tags == Desired(wanted[..i])
    {
      assert wanted[..i + 1][..i] == wanted[..i];
      tags := tags[wanted[i].key := wanted[i].value];
    }
    assert wanted[..|wanted|] == wanted;
    ghost var desired := tags;
    assert instanceTags[..0] == [] && Missing(desired, []) == desired;
    hide OwnTags, Entries, Carries, Missing;

    var nameOk, clusterOk := false, false;
    for i := 0 to |instanceTags|
      invariant nameOk == Carries(instanceTags[..i], NAME_KEY, machineName)
      invariant clusterOk == Carries(instanceTags[..i], CLUSTER_PREFIX + clusterID, OWNED)
      invariant tags == Missing(desired, instanceTags[..i])
    {
      var tag := instanceTags[i];
      assert instanceTags[..i + 1] == instanceTags[..i] + [tag];
      CarriesNext(instanceTags[..i], tag, NAME_KEY, machineName);
      CarriesNext(instanceTags[..i], tag, CLUSTER_PREFIX + clusterID, OWNED);
      MissingNext(desired, instanceTags[..i], tag);
      if tag.key.Some? && tag.value.Some? {
        if tag.key.value == NAME_KEY && tag.value.value == machineName {
          nameOk := true;
        }
        if tag.key.value == CLUSTER_PREFIX + clusterID && tag.value.value == OWNED {
          clusterOk := true;
        }
        if tag.key.value in tags && tag.value.value == tags[tag.key.value] {
          tags := tags - {tag.key.value};
        }
      }
    }
    assert instanceTags[..|instanceTags|] == instanceTags;

    toAdd := InAnyOrder(tags);
    if !nameOk || !clusterOk {
      toAdd := toAdd + OwnTags(machineName, clusterID);
    }
  }

  lemma EntriesShrink(m: map<string, string>, k: string)
    requires k in m
    ensures multiset(Entries(m)) == multiset{Tag(k, m[k])} + multiset(Entries(m - {k}))
    ensures |(m - {k}).Keys| < |m.Keys|
  {
    var smaller := m - {k};
    forall t ensures t in Entries(m) <==> t in Entries(smaller) + {Tag(k, m[k])} {
      if t in Entries(m) && t.key != k {
        assert t.key in smaller;
      }
    }
    assert Entries(m) == Entries(smaller) + {Tag(k, m[k])};
    assert m.Keys == smaller.Keys + {k};
  }

  /** Iteration over a Go map: each entry once, in an order the language leaves open. */
  method InAnyOrder(m: map<string, string>) returns (list: seq<Tag>)
    ensures multiset(list) == multiset(Entries(m))
  {
    list := [];
    var rest := m;
    assert Entries(map[]) == {};
    hide Entries;
    while rest.Keys != {}
      invariant rest.Keys <= m.Keys && forall k :: k in rest ==> rest[k] == m[k]
      invariant multiset(list) + multiset(Entries(rest)) == multiset(Entries(m))
      decreases |rest.Keys|
    {
      var k :| k in rest.Keys;
      list := list + [Tag(k, rest[k])];
      EntriesShrink(rest, k);
      rest := rest - {k};
    }
  }

  // ---- What the request achieves ----

  predicate Complete(t: InstanceTag) {
    t.key.Some? && t.value.Some?
  }

  /** AWS keeps one value per key. */
  predicate UniquelyTagged(instanceTags: seq<InstanceTag>) {
    forall s, t | s in instanceTags && t in instanceTags && Complete(s) && Complete(t)
      && s.key == t.key :: s.value == t.value
  }

  /** The tags of the instance as AWS keeps them. */
  function LiveTags(instanceTags: seq<InstanceTag>): map<string, string>
    requires UniquelyTagged(instanceTags)
  {
    map t | t in instanceTags && Complete(t) :: t.key.value := t.value.value
  }

  /** CreateTags adds or replaces what is named and leaves the other tags alone. */
  function Applied(live: map<string, string>, tags: seq<Tag>): map<string, string>
    decreases |tags|
  {
    if tags == [] then live else Applied(live[tags[0].key := tags[0].value], tags[1..])
  }

  lemma {:induction false} AppliedOverrides(live: map<string, string>, tags: seq<Tag>, desired: map<string, string>)
    requires forall t :: t in tags ==> t.key in desired && t.value == desired[t.key]
    requires forall k :: k in desired ==> (k in live && live[k] == desired[k]) || Tag(k, desired[k]) in tags
    ensures Applied(live, tags) == live + desired
    decreases |tags|
  {
    if tags == [] {
      assert live == live + desired;
    } else {
      var next := live[tags[0].key := tags[0].value];
      assert tags[0] in tags;
      assert forall t :: t in tags ==> t == tags[0] || t in tags[1..];
      AppliedOverrides(next, tags[1..], desired);
      assert next + desired == live + desired;
    }
  }

  lemma {:induction false} DesiredIsFirstValue(tags: seq<Tag>, key: string)
    requires UniqueKeys(tags)
    ensures key in Desired(tags) <==> FirstValue(tags, key).Some?
    ensures key in Desired(tags) ==> FirstValue(tags, key) == Some(Desired(tags)[key])
  {
    if tags != [] {
      var rest, last := tags[..|tags| - 1], tags[|tags| - 1];
      DesiredIsFirstValue(rest, key);
      assert tags == rest + [last];
      FirstValueOfAppend(rest, [last], key);
      FirstValueFinds(rest, key);
      assert last.key !in Keys(rest);
    }
  }

  lemma LiveMeaning(instanceTags: seq<InstanceTag>, key: string, value: string)
    requires UniquelyTagged(instanceTags)
    ensures Carries(instanceTags, key, value) <==> key in LiveTags(instanceTags) && LiveTags(instanceTags)[key] == value
  {
    var live := LiveTags(instanceTags);
    if Carries(instanceTags, key, value) {
      var t := InstanceTag(Some(key), Some(value));
      assert t in instanceTags;
      assert t.key.value in live;
    }
  }

  lemma OwnTagsAreDesired(machineName: string, clusterID: string, machineTags: seq<Tag>, infraTags: Option<seq<Tag>>)
    ensures var desired := Desired(TagList(machineName, clusterID, machineTags, infraTags));
      forall t :: t in OwnTags(machineName, clusterID) ==> t.key in desired && desired[t.key] == t.value
  {
    TagListMeaning(machineName, clusterID, machineTags, infraTags);
    var list := TagList(machineName, clusterID, machineTags, infraTags);
    DesiredIsFirstValue(list, NAME_KEY);
    DesiredIsFirstValue(list, CLUSTER_PREFIX + clusterID);
  }

  /** Whatever order the map iteration takes, the instance ends up with its old tags overridden by the wanted ones;
      nothing is sent exactly when every wanted tag is already right. */
  lemma CorrectionConverges(machineName: string, clusterID: string, machineTags: seq<Tag>, infraTags: Option<seq<Tag>>,
                            instanceTags: seq<InstanceTag>, sent: seq<Tag>)
    requires UniquelyTagged(instanceTags)
    requires multiset(sent) == Needed(machineName, clusterID, TagList(machineName, clusterID, machineTags, infraTags),
      instanceTags)
    ensures var desired := Desired(TagList(machineName, clusterID, machineTags, infraTags));
      var live := LiveTags(instanceTags);
      && Applied(live, sent) == live + desired
      && (sent == [] <==> forall k :: k in desired ==> k in live && live[k] == desired[k])
  {
    var wanted := TagList(machineName, clusterID, machineTags, infraTags);
    var desired, live := Desired(wanted), LiveTags(instanceTags);
    var own := OwnTags(machineName, clusterID);
    OwnTagsAreDesired(machineName, clusterID, machineTags, infraTags);
    var missing := Missing(desired, instanceTags);
    forall k | k in desired
      ensures k in missing <==> !(k in live && live[k] == desired[k])
    {
      LiveMeaning(instanceTags, k, desired[k]);
    }
    forall t | t in sent
      ensures t.key in desired && t.value == desired[t.key]
    {
      assert t in multiset(sent);
      assert t in Entries(missing) || t in multiset(own);
      assert t in Entries(missing) || t in own;
    }
    forall k | k in desired && !(k in live && live[k] == desired[k])
      ensures Tag(k, desired[k]) in sent
    {
      assert Tag(k, missing[k]) in Entries(missing);
      assert Tag(k, desired[k]) in multiset(sent);
    }
    AppliedOverrides(live, sent, desired);
    if forall k :: k in desired ==> k in live && live[k] == desired[k] {
      NothingNeeded(machineName, clusterID, machineTags, infraTags, instanceTags);
      assert |sent| == |multiset(sent)| == 0;
    }
  }

  /** Once the live tags agree with the wanted ones, a further correction sends nothing. */
  lemma NothingNeeded(machineName: string, clusterID: string, machineTags: seq<Tag>, infraTags: Option<seq<Tag>>,
                      instanceTags: seq<InstanceTag>)
    requires UniquelyTagged(instanceTags)
    requires var desired := Desired(TagList(machineName, clusterID, machineTags, infraTags));
      forall k :: k in desired ==> k in LiveTags(instanceTags) && LiveTags(instanceTags)[k] == desired[k]
    ensures Needed(machineName, clusterID, TagList(machineName, clusterID, machineTags, infraTags), instanceTags) ==
      multiset{}
  {
    var desired := Desired(TagList(machineName, clusterID, machineTags, infraTags));
    OwnTagsAreDesired(machineName, clusterID, machineTags, infraTags);
    var own := OwnTags(machineName, clusterID);
    assert own[0] in own && own[1] in own;
    forall k | k in desired
      ensures Carries(instanceTags, k, desired[k])
    {
      LiveMeaning(instanceTags, k, desired[k]);
    }
    assert Missing(desired, instanceTags) == map[];
    assert Entries(Missing(desired, instanceTags)) == {};
  }

  /** How often a request names an own tag: once if it is not right, and once more if either of the two is not. */
  lemma {:induction false} OwnTagsAreRepeated(machineName: string, clusterID: string, machineTags: seq<Tag>,
                                              infraTags: Option<seq<Tag>>, instanceTags: seq<InstanceTag>)
    ensures var wanted := TagList(machineName, clusterID, machineTags, infraTags);
      var nameRight := InstanceTag(Some("Name"), Some(machineName)) in instanceTags;
      var clusterRight := InstanceTag(Some("kubernetes.io/cluster/" + clusterID), Some("owned")) in instanceTags;
      Needed(machineName, clusterID, wanted, instanceTags)[Tag("Name", machineName)] ==
        (if nameRight then 0 else 1) + (if nameRight && clusterRight then 0 else 1)
  {
    var wanted := TagList(machineName, clusterID, machineTags, infraTags);
    var missing := Missing(Desired(wanted), instanceTags);
    var own := OwnTags(machineName, clusterID);
    OwnTagsAreDesired(machineName, clusterID, machineTags, infraTags);
    assert Tag(NAME_KEY, machineName) == own[1] && own[1] in own;
    assert NAME_KEY in missing <==> !Carries(instanceTags, NAME_KEY, machineName);
    assert Tag(NAME_KEY, machineName) in Entries(missing) <==> NAME_KEY in missing;
    NameOccursOnce(machineName, clusterID);
  }

  lemma NameOccursOnce(machineName: string, clusterID: string)
    ensures multiset(OwnTags(machineName, clusterID))[Tag(NAME_KEY, machineName)] == 1
  {
    var own := OwnTags(machineName, clusterID);
    assert (CLUSTER_PREFIX + clusterID)[0] == 'k' && NAME_KEY[0] == 'N';
    assert own[0] != Tag(NAME_KEY, machineName);
    assert own == [own[0]] + [own[1]];
    assert multiset(own) == multiset{own[0], own[1]};
  }

  /** A second correction after a first one that AWS applied has nothing left to send. */
  lemma SecondCorrectionIsSilent(machineName: string, clusterID: string, machineTags: seq<Tag>,
                                 infraTags: Option<seq<Tag>>,
                                 before: seq<InstanceTag>, sent: seq<Tag>, after: seq<InstanceTag>)
    requires UniquelyTagged(before) && UniquelyTagged(after)
    requires multiset(sent) == Needed(machineName, clusterID, TagList(machineName, clusterID, machineTags, infraTags),
      before)
    requires LiveTags(after) == Applied(LiveTags(before), sent)
    ensures Needed(machineName, clusterID, TagList(machineName, clusterID, machineTags, infraTags), after) == multiset{}
  {
    CorrectionConverges(machineName, clusterID, machineTags, infraTags, before, sent);
    NothingNeeded(machineName, clusterID, machineTags, infraTags, after);
  }
}
