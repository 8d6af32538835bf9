/** JSON documents, the merge patch between two of them and its application. */
module MergePatch {
  /** Numbers, booleans and strings are scalars. */
  datatype Json = Null | Scalar(text: string) | Array(items: seq<Json>) | Object(fields: Fields)

  /** Names of members. The two that the machine code treats specially are told apart from all others. */
  datatype Key = Status | ProviderStatus | Other(name: string)

  type Fields = map<Key, Json>

  function FieldsOf(v: Json): Fields {
    if v.Object? then v.fields else map[]
  }

  /** MergePatch of RFC 7396, section 2. A member the target lacks is merged as null. */
  function Merge(target: Json, patch: Json): Json
    decreases patch
  {
    if !patch.Object? then patch
    else
      var kept := FieldsOf(target);
      Object(map k | k in kept.Keys + patch.fields.Keys && !(k in patch.fields && patch.fields[k].Null?) ::
        if k in patch.fields then Merge(if k in kept then kept[k] else Null, patch.fields[k]) else kept[k])
  }

  /** Whether the patch mentions a member that both documents have. */
  predicate Differs(a: Json, b: Json)
    decreases b, 1
  {
    if a.Object? && b.Object? then Diff(a, b) != map[] else a != b
  }

  /** What turns one object into another: new and changed members, and null for each member dropped. */
  function Diff(a: Json, b: Json): Fields
    requires a.Object? && b.Object?
    decreases b, 0
  {
    map k | k in a.fields.Keys + b.fields.Keys &&
            (k in a.fields && k in b.fields ==> Differs(a.fields[k], b.fields[k])) ::
      if k !in b.fields then Null
      else if k in a.fields && a.fields[k].Object? && b.fields[k].Object? then Object(Diff(a.fields[k], b.fields[k]))
      else b.fields[k]
  }

  /** No member of the value, at any depth of objects, is null. */
  predicate NullFree(v: Json)
    decreases v
  {
    !v.Null? && (v.Object? ==> forall k :: k in v.fields ==> NullFree(v.fields[k]))
  }

  /** A merge patch can set every member of b: none that is new or changed carries a null. */
  predicate Expressible(a: Json, b: Json)
    decreases b
  {
    if a.Object? && b.Object? then
      forall k :: k in b.fields ==> if k in a.fields
        then Expressible(a.fields[k], b.fields[k]) else NullFree(b.fields[k])
    else a == b || NullFree(b)
  }

  lemma {:induction false} DiffIsEmptyExactlyWhenEqual(a: Json, b: Json)
    requires a.Object? && b.Object?
    ensures Diff(a, b) == map[] <==> a == b
    decreases b
  {
    forall k | k in a.fields && k in b.fields ensures Differs(a.fields[k], b.fields[k]) <==>
      a.fields[k] != b.fields[k] {
      if a.fields[k].Object? && b.fields[k].Object? {
        DiffIsEmptyExactlyWhenEqual(a.fields[k], b.fields[k]);
      }
    }
    if Diff(a, b) == map[] {
      forall k ensures k in a.fields <==> k in b.fields {
        assert k !in Diff(a, b);
      }
      forall k | k in a.fields && k in b.fields ensures a.fields[k] == b.fields[k] {
        assert k !in Diff(a, b);
      }
      assert a.fields == b.fields;
    }
  }

  /** Building an object from nothing keeps it exactly when no null occurs in it. */
  lemma {:induction false} MergeIntoNothing(target: Json, v: Json)
    requires v.Object? ==> FieldsOf(target) == map[]
    ensures Merge(target, v) == v && !v.Null? <==> NullFree(v)
    decreases v
  {
    if v.Object? {
      var m := Merge(target, v);
      forall k | k in v.fields
        ensures k in m.fields && m.fields[k] == v.fields[k] <==> NullFree(v.fields[k])
      {
        MergeIntoNothing(Null, v.fields[k]);
      }
      if NullFree(v) {
        assert m.fields == v.fields;
      }
    }
  }

  lemma {:induction false} MemberArrives(a: Json, b: Json, k: Key)
    requires a.Object? && b.Object?
    requires k in b.fields
    requires k in a.fields && a.fields[k].Object? && b.fields[k].Object? ==>
      (Merge(a.fields[k], Object(Diff(a.fields[k], b.fields[k]))) == b.fields[k] <==>
        Expressible(a.fields[k], b.fields[k]))
    ensures
      var m := Merge(a, Object(Diff(a, b)));
      k in m.fields && m.fields[k] == b.fields[k] <==>
        if k in a.fields then Expressible(a.fields[k], b.fields[k]) else NullFree(b.fields[k])
  {
    var d := Diff(a, b);
    var m := Merge(a, Object(d));
    var v := b.fields[k];
    if k !in a.fields {
      assert k in d && d[k] == v;
      MergeIntoNothing(Null, v);
    } else if a.fields[k].Object? && v.Object? {
      DiffIsEmptyExactlyWhenEqual(a.fields[k], v);
      if k !in d {
        assert m.fields[k] == a.fields[k];
        assert Merge(v, Object(map[])).fields == v.fields;
      }
    } else {
      assert Differs(a.fields[k], v) <==> a.fields[k] != v;
      MergeIntoNothing(a.fields[k], v);
    }
  }

  /** Applying the patch between two objects to the first gives the second, exactly when it can be expressed. */
  lemma {:induction false} PatchReachesExactlyWhen(a: Json, b: Json)
    requires a.Object? && b.Object?
    ensures Merge(a, Object(Diff(a, b))) == b <==> Expressible(a, b)
    decreases b
  {
    var d := Diff(a, b);
    var m := Merge(a, Object(d));
    forall k | k in b.fields
      ensures k in m.fields && m.fields[k] == b.fields[k] <==>
        if k in a.fields then Expressible(a.fields[k], b.fields[k]) else NullFree(b.fields[k])
    {
      if k in a.fields && a.fields[k].Object? && b.fields[k].Object? {
        PatchReachesExactlyWhen(a.fields[k], b.fields[k]);
      }
      MemberArrives(a, b, k);
    }
    if Expressible(a, b) {
      assert m.fields == b.fields;
    }
  }

  /** A null where there was nothing cannot be written: the patch that asks for it removes the member instead. */
  lemma {:induction false} NullIsLost(k: Key)
    ensures Diff(Object(map[]), Object(map[k := Null])) == map[k := Null]
    ensures Merge(Object(map[]), Object(map[k := Null])) == Object(map[])
  {
    assert Merge(Object(map[]), Object(map[k := Null])).fields == map[];
  }

  /** Two objects that have the same value, or none, for a member. */
  predicate AgreeOn(a: Json, b: Json, k: Key) {
    a.Object? && b.Object? && (k in a.fields <==> k in b.fields) && (k in a.fields ==> a.fields[k] == b.fields[k])
  }

  /** Patches and merges go member by member. */
  lemma DiffIsMemberwise(a: Json, b: Json, c: Json, k: Key)
    requires a.Object? && AgreeOn(b, c, k)
    ensures AgreeOn(Object(Diff(a, b)), Object(Diff(a, c)), k)
  {
  }

  lemma MergeIsMemberwise(a: Json, p: Json, b: Json, q: Json, k: Key)
    requires AgreeOn(a, b, k) && AgreeOn(p, q, k)
    ensures AgreeOn(Merge(a, p), Merge(b, q), k)
  {
  }

  lemma {:induction false} EqualMemberIsKept(a: Json, b: Json, k: Key)
    requires AgreeOn(a, b, k)
    ensures k !in Diff(a, b)
    ensures AgreeOn(a, Merge(a, Object(Diff(a, b))), k)
  {
    if k in a.fields && a.fields[k].Object? {
      DiffIsEmptyExactlyWhenEqual(a.fields[k], b.fields[k]);
    }
  }
}
