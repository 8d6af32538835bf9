/** Choosing the newest instance (pkg/actuators/machine/instances.go, pkg/actuators/machine/utils.go). */
module InstanceOrder {
  import opened Wrappers
  import opened Cloud

  /** The comparator: a missing launch time sorts first, then later launch times before earlier ones. */
  predicate Less(a: Instance, b: Instance) {
    if a.launchTime.None? && b.launchTime.None? then false
    else if a.launchTime.Some? && b.launchTime.None? then false
    else if a.launchTime.None? && b.launchTime.Some? then true
    else a.launchTime.value > b.launchTime.value
  }

  /** No instance of the list is strictly newer than an earlier one. */
  predicate NewestFirst(s: seq<Instance>) {
    forall i, j :: 0 <= i < j < |s| ==> !Less(s[j], s[i])
  }

  /** Less is a strict weak order: asymmetric, transitive, and being unordered is transitive too. */
  lemma LessIsStrictWeakOrder(a: Instance, b: Instance, c: Instance)
    ensures !(Less(a, b) && Less(b, a))
    ensures Less(a, b) && Less(b, c) ==> Less(a, c)
    ensures !Less(a, b) && !Less(b, c) ==> !Less(a, c)
  {
  }

  // ---- Sorting ----

  /** The list with x moved in from the right, past every element it is less than. */
  function Inserted(s: seq<Instance>, x: Instance): seq<Instance> {
    if s == [] || !Less(x, s[|s| - 1]) then s + [x]
    else Inserted(s[..|s| - 1], x) + [s[|s| - 1]]
  }

  function Sorted(s: seq<Instance>): seq<Instance> {
    if s == [] then [] else Inserted(Sorted(s[..|s| - 1]), s[|s| - 1])
  }

  lemma {:induction false} InsertedPermutes(s: seq<Instance>, x: Instance)
    ensures multiset(Inserted(s, x)) == multiset(s) + multiset{x}
    ensures |Inserted(s, x)| == |s| + 1
  {
    if s != [] && Less(x, s[|s| - 1]) {
      InsertedPermutes(s[..|s| - 1], x);
      assert s == s[..|s| - 1] + [s[|s| - 1]];
    }
  }

  lemma {:induction false} InsertedOrdered(s: seq<Instance>, x: Instance)
    requires NewestFirst(s)
    ensures NewestFirst(Inserted(s, x))
  {
    if s != [] {
      var rest, last := s[..|s| - 1], s[|s| - 1];
      if Less(x, last) {
        InsertedOrdered(rest, x);
        InsertedPermutes(rest, x);
        NotNewerThanAny(Inserted(rest, x), rest, x, last);
      } else {
        forall i | 0 <= i < |s|
          ensures !Less(x, s[i])
        {
          LessIsStrictWeakOrder(x, last, s[i]);
        }
      }
    }
  }

  lemma NotNewerThanAny(moved: seq<Instance>, rest: seq<Instance>, x: Instance, last: Instance)
    requires multiset(moved) == multiset(rest) + multiset{x}
    requires Less(x, last) && forall i :: 0 <= i < |rest| ==> !Less(last, rest[i])
    ensures forall i :: 0 <= i < |moved| ==> !Less(last, moved[i])
  {
    LessIsStrictWeakOrder(x, last, x);
    forall i | 0 <= i < |moved|
      ensures !Less(last, moved[i])
    {
      assert moved[i] in multiset(moved);
      assert moved[i] == x || moved[i] in rest;
    }
  }

  /** Sorting yields an ordered permutation. */
  lemma {:induction false} SortedMeaning(s: seq<Instance>)
    ensures NewestFirst(Sorted(s))
    ensures multiset(Sorted(s)) == multiset(s)
    ensures |Sorted(s)| == |s|
  {
    if s != [] {
      hide Inserted, NewestFirst;
      SortedMeaning(s[..|s| - 1]);
      InsertedOrdered(Sorted(s[..|s| - 1]), s[|s| - 1]);
      InsertedPermutes(Sorted(s[..|s| - 1]), s[|s| - 1]);
      assert s == s[..|s| - 1] + [s[|s| - 1]];
    }
  }

  method Swap(a: array<Instance>, i: nat, j: nat)
    requires i < a.Length && j < a.Length
    modifies a
    ensures a[i] == old(a[j]) && a[j] == old(a[i])
    ensures forall k :: 0 <= k < a.Length && k != i && k != j ==> a[k] == old(a[k])
  {
    a[i], a[j] := a[j], a[i];
  }

  lemma SortedNext(s: seq<Instance>, i: nat)
    requires i < |s|
    ensures Sorted(s[..i + 1]) == Inserted(Sorted(s[..i]), s[i])
  {
    assert s[..i + 1][..i] == s[..i];
  }

  /** The library sort, as insertion by adjacent swaps of Less-inverted neighbours. */
  method SortInstances(a: array<Instance>)
    modifies a
    ensures a[..] == Sorted(old(a[..]))
  {
    ghost var was := a[..];
    var i := 0;
    while i < a.Length
      invariant 0 <= i <= a.Length
      invariant a[..i] == Sorted(was[..i])
      invariant forall k :: i <= k < a.Length ==> a[k] == was[k]
    {
      SortedNext(was, i);
      SiftDown(a, i);
      i := i + 1;
    }
    assert was[..a.Length] == was && a[..a.Length] == a[..];
  }

  lemma InsertedPasses(s: seq<Instance>, j: nat, i: nat, x: Instance)
    requires 0 < j <= i <= |s| && Less(x, s[j - 1])
    ensures Inserted(s[..j], x) + s[j..i] == Inserted(s[..j - 1], x) + s[j - 1..i]
  {
    assert s[..j][..j - 1] == s[..j - 1];
    assert s[j - 1..i] == [s[j - 1]] + s[j..i];
  }

  lemma InsertedStops(s: seq<Instance>, j: nat, x: Instance)
    requires j <= |s| && (j == 0 || !Less(x, s[j - 1]))
    ensures Inserted(s[..j], x) == s[..j] + [x]
  {
  }

  lemma MovedIn(now: seq<Instance>, was: seq<Instance>, j: nat, i: nat, x: Instance)
    requires j <= i < |was| && |now| == i + 1
    requires forall k :: 0 <= k < j ==> now[k] == was[k]
    requires now[j] == x
    requires forall k :: j < k <= i ==> now[k] == was[k - 1]
    ensures now == was[..j] + [x] + was[j..i]
  {
  }

  method SiftDown(a: array<Instance>, i: nat)
    requires i < a.Length
    modifies a
    ensures a[..i + 1] == Inserted(old(a[..i]), old(a[i]))
    ensures forall k :: i < k < a.Length ==> a[k] == old(a[k])
  {
    hide Less, Inserted;
    ghost var was, x := a[..], a[i];
    var j := i;
    while j > 0 && Less(a[j], a[j - 1])
      invariant 0 <= j <= i
      invariant a[j] == x
      invariant forall k :: 0 <= k < j || i < k < a.Length ==> a[k] == was[k]
      invariant forall k :: j < k <= i ==> a[k] == was[k - 1]
      invariant Inserted(was[..i], x) == Inserted(was[..j], x) + was[j..i]
    {
      InsertedPasses(was, j, i, x);
      Swap(a, j, j - 1);
      j := j - 1;
    }
    InsertedStops(was, j, x);
    MovedIn(a[..i + 1], was, j, i, x);
  }

  // ---- The choice update makes ----

  predicate IsRunning(i: Instance) {
    i.state == Some(InstanceState.Running)
  }

  function Running(s: seq<Instance>): seq<Instance> {
    if s == [] then []
    else
      var n := |s| - 1;
      Running(s[..n]) + (if IsRunning(s[n]) then [s[n]] else [])
  }

  method GetRunningFromInstances(instances: seq<Instance>) returns (running: seq<Instance>)
    ensures running == Running(instances)
    ensures forall i :: i in running <==> i in instances && i.state == Some(InstanceState.Running)
  {
    running := [];
    for i := 0 to |instances|
      invariant running == Running(instances[..i])
    {
      assert instances[..i + 1][..i] == instances[..i];
      if instances[i].state == Some(InstanceState.Running) {
        running := running + [instances[i]];
      }
    }
    assert instances[..|instances|] == instances;
    RunningMeaning(instances);
  }

  /** The instance update works on, given the sorted list. */
  function Newest(sorted: seq<Instance>): Instance
    requires sorted != []
  {
    if Running(sorted) != [] then Running(sorted)[0] else sorted[0]
  }

  lemma {:induction false} RunningMeaning(s: seq<Instance>)
    ensures forall i :: i in Running(s) <==> i in s && i.state == Some(InstanceState.Running)
    ensures NewestFirst(s) ==> NewestFirst(Running(s))
  {
    if s != [] {
      var n := |s| - 1;
      RunningMeaning(s[..n]);
      assert s == s[..n] + [s[n]];
      if NewestFirst(s) {
        forall i | 0 <= i < |Running(s[..n])|
          ensures !Less(s[n], Running(s[..n])[i])
        {
          assert Running(s[..n])[i] in s[..n];
        }
      }
    }
  }

  /** A found instance: a running one that no running one is newer than if any runs, else one that no other is newer
      than. */
  predicate Chosen(found: seq<Instance>, n: Instance) {
    && n in found
    && ((exists i :: i in found && IsRunning(i)) ==> IsRunning(n) && forall i :: i in found && IsRunning(i) ==>
       !Less(i, n))
    && (!(exists i :: i in found && IsRunning(i)) ==> forall i :: i in found ==> !Less(i, n))
  }

  /** The choice is right whatever order the sort gives to equal launch times. */
  lemma NewestChoice(found: seq<Instance>, sorted: seq<Instance>)
    requires found != []
    requires multiset(sorted) == multiset(found) && NewestFirst(sorted)
    ensures sorted != [] && Chosen(found, Newest(sorted))
  {
    assert |multiset(sorted)| == |sorted| && |multiset(found)| == |found|;
    assert forall i :: i in found <==> i in multiset(found);
    assert forall i :: i in sorted <==> i in multiset(sorted);
    RunningMeaning(sorted);
    var running := Running(sorted);
    if running != [] {
      assert running[0] in running;
    }
    forall i | i in found && (IsRunning(i) || running == [])
      ensures !Less(i, Newest(sorted))
    {
      if running != [] {
        var k :| 0 <= k < |running| && running[k] == i;
      } else {
        var k :| 0 <= k < |sorted| && sorted[k] == i;
      }
    }
  }

  // ---- What the comment on the sort promises ----

  /** A launch time is later than another; a missing one is earlier than any. */
  predicate LaunchedAfter(a: Instance, b: Instance) {
    a.launchTime.Some? && (b.launchTime.None? || a.launchTime.value > b.launchTime.value)
  }

  predicate NewestToOldest(s: seq<Instance>) {
    forall i, j :: 0 <= i < j < |s| ==> !LaunchedAfter(s[j], s[i])
  }

  /** A list sorted by the comparator is from the newest to the oldest exactly when every instance has a launch time
      or none has. */
  lemma NewestToOldestExactlyWhen(found: seq<Instance>, sorted: seq<Instance>)
    requires multiset(sorted) == multiset(found) && NewestFirst(sorted)
    ensures NewestToOldest(sorted) <==>
      (forall i :: i in found ==> i.launchTime.Some?) || (forall i :: i in found ==> i.launchTime.None?)
  {
    assert forall i :: i in found <==> i in multiset(found);
    assert forall i :: i in sorted <==> i in multiset(sorted);
    if x, y :| x in sorted && y in sorted && x.launchTime.Some? && y.launchTime.None? {
      var i :| 0 <= i < |sorted| && sorted[i] == x;
      var j :| 0 <= j < |sorted| && sorted[j] == y;
      assert Less(y, x) && !Less(x, y);
      assert LaunchedAfter(sorted[i], sorted[j]) && j < i;
    } else {
      forall i, j | 0 <= i < j < |sorted| ensures !LaunchedAfter(sorted[j], sorted[i]) {
        assert sorted[i] in sorted && sorted[j] in sorted && !Less(sorted[j], sorted[i]);
      }
    }
  }

  lemma InsertedIntoOne(a: Instance, b: Instance)
    ensures Inserted([a], b) == if Less(b, a) then [b, a] else [a, b]
  {
    hide Less;
    assert [a][..0] == [];
    assert Inserted([], b) == [b];
  }

  lemma SortedOne(a: Instance)
    ensures Sorted([a]) == [a]
  {
    hide Less;
    assert [a][..0] == [];
    assert Inserted([], a) == [a];
  }

  lemma SortedPair(a: Instance, b: Instance)
    ensures Sorted([a, b]) == if Less(b, a) then [b, a] else [a, b]
  {
    hide Inserted, Less;
    assert [a, b][..1] == [a];
    SortedOne(a);
    InsertedIntoOne(a, b);
  }

  /** An instance without a launch time comes before one with, whichever way round they are found. */
  lemma MissingLaunchTimeComesFirst(dated: Instance, undated: Instance)
    requires dated.launchTime.Some? && undated.launchTime.None?
    ensures Sorted([dated, undated]) == Sorted([undated, dated]) == [undated, dated]
    ensures !NewestToOldest([undated, dated])
  {
    SortedPair(dated, undated);
    SortedPair(undated, dated);
    assert LaunchedAfter([undated, dated][1], [undated, dated][0]);
  }
}
