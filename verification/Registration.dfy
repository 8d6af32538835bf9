/** What registering with network load balancers achieves (pkg/actuators/machine/loadbalancers.go). */
module Registration {
  import opened Cloud
  import opened LoadBalancers

  // ---- Whatever AWS answers ----

  /** Between two points of the log, the group was seen to hold the target. */
  predicate SeenRegistered(log: Log, from: nat, group: string, id: string) {
    exists k :: from <= k < |log| && ShowsRegistered(log[k], group, id)
  }

  predicate ShowsRegistered(e: Event, group: string, id: string) {
    || (e.DescribeTargetHealth? && e.group == group && e.targets.Ok? && id in e.targets.value)
    || e == RegisterTargets(group, id, true)
  }

  /** The group's health was read, or registration with it was asked for. */
  predicate Attempted(log: Log, from: nat, group: string, id: string) {
    exists k :: from <= k < |log| && (ShowsRegistered(log[k], group, id) || AsksToRegister(log[k], group, id))
  }

  predicate AsksToRegister(e: Event, group: string, id: string) {
    e.RegisterTargets? && e.group == group && e.target == id
  }

  lemma RegisterOneMeaning(w: World, log: Log, g: TargetGroup, instance: Instance)
    ensures var o := RegisterOne(w, log, g, instance);
      && log <= o.log
      && Attempted(o.log, |log|, g.arn, TargetID(g, instance))
      && (o.value ==> SeenRegistered(o.log, |log|, g.arn, TargetID(g, instance)))
  {
    var id := TargetID(g, instance);
    var o := RegisterOne(w, log, g, instance);
    var health := w.describeTargetHealth(log, g.arn);
    assert o.log[|log|] == DescribeTargetHealth(g.arn, health);
    if health.Ok? && id in health.value {
      assert ShowsRegistered(o.log[|log|], g.arn, id);
    } else {
      assert AsksToRegister(o.log[|log| + 1], g.arn, id);
    }
  }

  /** Every group is attempted despite earlier failures, and a nil error means every group was seen to hold the
      target. */
  lemma {:induction false} EveryGroupIsAttempted(w: World, log: Log, groups: seq<TargetGroup>, instance: Instance)
    ensures var o := RegisterAll(w, log, groups, instance);
      && log <= o.log
      && (forall g :: g in groups ==> Attempted(o.log, |log|, g.arn, TargetID(g, instance)))
      && (o.value ==> forall g :: g in groups ==> SeenRegistered(o.log, |log|, g.arn, TargetID(g, instance)))
    decreases |groups|
  {
    if groups != [] {
      var first := RegisterOne(w, log, groups[0], instance);
      var o := RegisterAll(w, first.log, groups[1..], instance);
      RegisterOneMeaning(w, log, groups[0], instance);
      EveryGroupIsAttempted(w, first.log, groups[1..], instance);
      forall g | g in groups
        ensures Attempted(o.log, |log|, g.arn, TargetID(g, instance))
        ensures first.value && o.value ==> SeenRegistered(o.log, |log|, g.arn, TargetID(g, instance))
      {
        var id := TargetID(g, instance);
        if g == groups[0] {
          var k :| |log| <= k < |first.log| && (ShowsRegistered(first.log[k], g.arn, id)
            || AsksToRegister(first.log[k], g.arn, id));
          assert o.log[k] == first.log[k];
          if first.value {
            var j :| |log| <= j < |first.log| && ShowsRegistered(first.log[j], g.arn, id);
            assert o.log[j] == first.log[j];
          }
        } else {
          assert g in groups[1..];
          assert Attempted(o.log, |first.log|, g.arn, id);
        }
      }
    }
  }

  // ---- When the listings of a group can be trusted ----

  /** The targets of a group, from those it started with and the changes AWS accepted since. */
  function Members(initial: string -> set<string>, log: Log, group: string): set<string> {
    if log == [] then initial(group)
    else
      var before := Members(initial, log[..|log| - 1], group);
      var e := log[|log| - 1];
      if e.RegisterTargets? && e.group == group && e.registered then before + {e.target}
      else if e.DeregisterTargets? && e.group == group && e.deregistered.Deregistered? then before - {e.target}
      else before
  }

  /** The health listings of this group, when they can be read, list exactly the registered targets. */
  ghost predicate Truthful(w: World, initial: string -> set<string>, group: string) {
    forall log: Log ::
      var health := w.describeTargetHealth(log, group);
      health.Ok? ==> (set id | id in health.value) == Members(initial, log, group)
  }

  predicate FailsToList(e: Event, group: string) {
    e.DescribeTargetHealth? && e.group == group && e.targets.Err?
  }

  /** What the log counts for one group and one target. */
  datatype Tally = Tally(accepted: int, requests: int, unreadable: int)

  function TallyOf(log: Log, group: string, id: string): Tally {
    if log == [] then Tally(0, 0, 0)
    else
      var t, e := TallyOf(log[..|log| - 1], group, id), log[|log| - 1];
      Tally(t.accepted + (if e == RegisterTargets(group, id, true) then 1 else 0),
            t.requests + (if e.RegisterTargets? && e.group == group then 1 else 0),
            t.unreadable + (if FailsToList(e, group) then 1 else 0))
  }

  /** Between two points of the log: accepted registrations of the target, requests to the group whatever their target,
      and failed listings of the group. */
  function Since(log: Log, next: Log, group: string, id: string): Tally {
    var a, b := TallyOf(log, group, id), TallyOf(next, group, id);
    Tally(b.accepted - a.accepted, b.requests - a.requests, b.unreadable - a.unreadable)
  }

  lemma OneMoreEvent(initial: string -> set<string>, log: Log, e: Event, group: string, id: string)
    ensures Members(initial, log + [e], group) == (
      if e.RegisterTargets? && e.group == group && e.registered then Members(initial, log, group) + {e.target}
      else if e.DeregisterTargets? && e.group == group && e.deregistered.Deregistered?
      then Members(initial, log, group) - {e.target}
      else Members(initial, log, group))
    ensures Since(log, log + [e], group, id) ==
      Tally(if e == RegisterTargets(group, id, true) then 1 else 0,
            if e.RegisterTargets? && e.group == group then 1 else 0,
            if FailsToList(e, group) then 1 else 0)
  {
    assert (log + [e])[..|log|] == log;
  }

  /** One group: its members only grow, the listing is believed when it can be read, and when it cannot,
      registration is asked for all the same. */
  lemma {:induction false} OneGroupConverges(w: World, initial: string -> set<string>, log: Log, g: TargetGroup,
                                             instance: Instance, group: string, id: string)
    requires Truthful(w, initial, group)
    ensures var o := RegisterOne(w, log, g, instance);
      var since, target := Since(log, o.log, group, id), TargetID(g, instance);
      && Members(initial, log, group) <= Members(initial, o.log, group)
      && (g.arn == group && o.value ==> target in Members(initial, o.log, group))
      && 0 <= since.accepted && 0 <= since.unreadable
      && (since.accepted > 0 ==> id in Members(initial, o.log, group))
      && since.accepted <= since.unreadable + (if id in Members(initial, log, group) then 0 else 1)
      && (g.arn == group && target in Members(initial, log, group) ==> since.requests == since.unreadable)
      && (g.arn == group && target in Members(initial, log, group) && since.unreadable == 0 ==> o.value)
      && (g.arn != group ==> since == Tally(0, 0, 0))
  {
    hide Truthful;
    var target := TargetID(g, instance);
    var health := w.describeTargetHealth(log, g.arn);
    var next := log + [DescribeTargetHealth(g.arn, health)];
    OneMoreEvent(initial, log, DescribeTargetHealth(g.arn, health), group, id);
    if g.arn == group && health.Ok? {
      ListingIsRight(w, initial, log, group, target);
    }
    if !(health.Ok? && target in health.value) {
      var ok := w.registerTargets(next, g.arn, target);
      OneMoreEvent(initial, next, RegisterTargets(g.arn, target, ok), group, id);
    }
  }

  lemma ListingIsRight(w: World, initial: string -> set<string>, log: Log, group: string, id: string)
    requires Truthful(w, initial, group) && w.describeTargetHealth(log, group).Ok?
    ensures id in w.describeTargetHealth(log, group).value <==> id in Members(initial, log, group)
  {
    var listed := w.describeTargetHealth(log, group).value;
    assert id in listed <==> id in set x | x in listed;
  }

  /** One pass, seen from one group whose readable listings are right, whatever the other groups answer: no error means
      that it holds the right target; and it gains a target at most once, and not at all when it held it before, but for
      one repetition per listing of it that failed. */
  lemma {:induction false} RegistrationConverges(w: World, initial: string -> set<string>, log: Log,
                                                 groups: seq<TargetGroup>,
                                                 instance: Instance, group: string, id: string)
    requires Truthful(w, initial, group)
    ensures var o := RegisterAll(w, log, groups, instance);
      var since := Since(log, o.log, group, id);
      && Members(initial, log, group) <= Members(initial, o.log, group)
      && (o.value ==> forall g :: g in groups && g.arn == group ==>
         TargetID(g, instance) in Members(initial, o.log, group))
      && 0 <= since.accepted && 0 <= since.unreadable
      && (since.accepted > 0 ==> id in Members(initial, o.log, group))
      && since.accepted <= since.unreadable + (if id in Members(initial, log, group) then 0 else 1)
    decreases |groups|
  {
    hide Truthful, RegisterOne, TargetID, TallyOf, Members;
    if groups != [] {
      var first := RegisterOne(w, log, groups[0], instance);
      OneGroupConverges(w, initial, log, groups[0], instance, group, id);
      RegistrationConverges(w, initial, first.log, groups[1..], instance, group, id);
      assert forall g :: g in groups ==> g == groups[0] || g in groups[1..];
    }
  }

  /** When a group holds its target already, a pass asks to register with it once per failed listing of it, and no
      more. */
  lemma {:induction false} RepeatRegistersNothing(w: World, initial: string -> set<string>, log: Log,
                                                  groups: seq<TargetGroup>,
                                                  instance: Instance, group: string)
    requires Truthful(w, initial, group)
    requires forall g :: g in groups && g.arn == group ==> TargetID(g, instance) in Members(initial, log, group)
    ensures var o := RegisterAll(w, log, groups, instance);
      var since := Since(log, o.log, group, "");
      0 <= since.requests == since.unreadable
    decreases |groups|
  {
    hide Truthful, RegisterOne, TargetID, TallyOf, Members;
    if groups != [] {
      var first := RegisterOne(w, log, groups[0], instance);
      assert groups[0] in groups;
      OneGroupConverges(w, initial, log, groups[0], instance, group, "");
      assert forall g :: g in groups[1..] ==> g in groups;
      RepeatRegistersNothing(w, initial, first.log, groups[1..], instance, group);
    }
  }

  // ---- Whole calls ----

  lemma {:induction false} GatheringKeepsGroups(w: World, initial: string -> set<string>, log: Log,
                                                balancers: seq<string>,
                                                gathered: seq<TargetGroup>, group: string, id: string)
    ensures var o := GatherGroups(w, log, balancers, gathered);
      Members(initial, o.log, group) == Members(initial, log, group) && Since(log, o.log, group, id) == Tally(0, 0, 0)
    decreases |balancers|
  {
    if balancers != [] {
      var reply := w.describeTargetGroups(log, balancers[0]);
      var e := DescribeTargetGroups(balancers[0], reply);
      OneMoreEvent(initial, log, e, group, id);
      if reply.Ok? {
        GatheringKeepsGroups(w, initial, log + [e], balancers[1..], gathered + reply.value, group, id);
      }
    }
  }

  lemma {:induction false} LookupKeepsGroups(w: World, initial: string -> set<string>, log: Log, names: seq<string>,
                                             group: string, id: string)
    ensures var o := GatherTargetGroups(w, log, names);
      Members(initial, o.log, group) == Members(initial, log, group) && Since(log, o.log, group, id) == Tally(0, 0, 0)
  {
    var reply := w.describeLoadBalancers(log, names);
    OneMoreEvent(initial, log, DescribeLoadBalancers(names, reply), group, id);
    if reply.Ok? {
      GatheringKeepsGroups(w, initial, log + [DescribeLoadBalancers(names, reply)], reply.value, [], group, id);
    }
  }

  /** These members of a group include the instance in the right way: by its ID in a group of instances, by its
      private address in a group of addresses. */
  predicate Holds(members: set<string>, g: TargetGroup, instance: Instance) {
    && (g.targetType == InstanceTarget && instance.id.Some? ==> instance.id.value in members)
    && (g.targetType == IPTarget && instance.privateIP.Some? ==> instance.privateIP.value in members)
  }

  /** A nil error of the whole call: each gathered group whose readable listings are right holds the instance under the
      right target ID, whether or not any listing can be read. */
  lemma {:induction false} NilErrorMeansMember(w: World, initial: string -> set<string>, log: Log, names: seq<string>,
                                               instance: Instance, g: TargetGroup)
    requires Truthful(w, initial, g.arn)
    requires RegisterNetwork(w, log, names, instance).value
    requires g in GatherTargetGroups(w, log, names).value.GetOr([])
    ensures Holds(Members(initial, RegisterNetwork(w, log, names, instance).log, g.arn), g, instance)
    ensures TargetID(g, instance) in Members(initial, RegisterNetwork(w, log, names, instance).log, g.arn)
  {
    var gathered := GatherTargetGroups(w, log, names);
    RegistrationConverges(w, initial, gathered.log, gathered.value.value, instance, g.arn, "");
  }

  /** A whole call asks AWS to add a target to a group at most once, never when it was a member before, if the
      listings of that group are right and can be read; every failed listing of it allows one repetition. */
  lemma {:induction false} CallRegistersAtMostOnce(w: World, initial: string -> set<string>, log: Log,
                                                   names: seq<string>,
                                                   instance: Instance, group: string, id: string)
    requires Truthful(w, initial, group)
    ensures var since := Since(log, RegisterNetwork(w, log, names, instance).log, group, id);
      since.accepted <= since.unreadable + (if id in Members(initial, log, group) then 0 else 1)
  {
    var gathered := GatherTargetGroups(w, log, names);
    LookupKeepsGroups(w, initial, log, names, group, id);
    if gathered.value.Some? {
      RegistrationConverges(w, initial, gathered.log, gathered.value.value, instance, group, id);
    }
  }

  /** Between two points of the log nothing was taken out of a group. */
  predicate NothingRemoved(log: Log, later: Log) {
    log <= later && forall k :: |log| <= k < |later| ==> !later[k].DeregisterTargets?
  }

  lemma {:induction false} MembersStay(initial: string -> set<string>, log: Log, later: Log, group: string)
    requires NothingRemoved(log, later)
    ensures Members(initial, log, group) <= Members(initial, later, group)
    decreases |later|
  {
    if |later| == |log| {
      assert later == log;
    } else {
      var n := |later| - 1;
      assert later == later[..n] + [later[n]];
      MembersStay(initial, log, later[..n], group);
    }
  }

  /** A whole second call at any later time: its lookups may find what they like, but with a group that the first
      call gathered and that nothing was removed from since, it asks to register once per failed listing of it, and
      no more. */
  lemma {:induction false} SecondCallRegistersNothing(w: World, initial: string -> set<string>, log: Log,
                                                      names: seq<string>,
                                                      later: Log, again: seq<string>, instance: Instance, group: string)
    requires Truthful(w, initial, group)
    requires RegisterNetwork(w, log, names, instance).value
    requires NothingRemoved(RegisterNetwork(w, log, names, instance).log, later)
    requires forall g :: g in GatherTargetGroups(w, later, again).value.GetOr([]) && g.arn == group ==>
      g in GatherTargetGroups(w, log, names).value.GetOr([])
    ensures var since := Since(later, RegisterNetwork(w, later, again, instance).log, group, "");
      since.requests == since.unreadable
  {
    hide Truthful, TargetID, TallyOf, Members, GatherTargetGroups, RegisterAll;
    var gathered := GatherTargetGroups(w, later, again);
    LookupKeepsGroups(w, initial, later, again, group, "");
    MembersStay(initial, RegisterNetwork(w, log, names, instance).log, later, group);
    if gathered.value.Some? {
      forall g | g in gathered.value.value && g.arn == group
        ensures TargetID(g, instance) in Members(initial, gathered.log, group)
      {
        NilErrorMeansMember(w, initial, log, names, instance, g);
      }
      RepeatRegistersNothing(w, initial, gathered.log, gathered.value.value, instance, group);
    }
  }

  // ---- Repetitions, exactly ----

  /** The request at position k asks for a registration that the group already has. */
  predicate RepeatsAt(initial: string -> set<string>, log: Log, k: nat, group: string, id: string) {
    k < |log| && AsksToRegister(log[k], group, id) && id in Members(initial, log[..k], group)
  }

  /** At position k a listing of the group fails while the group holds the target. */
  predicate BlindAt(initial: string -> set<string>, log: Log, k: nat, group: string, id: string) {
    k < |log| && FailsToList(log[k], group) && id in Members(initial, log[..k], group)
  }

  function Repeats(initial: string -> set<string>, log: Log, group: string, id: string): nat {
    if log == [] then 0
    else
      var n := |log| - 1;
      Repeats(initial, log[..n], group, id) + (if RepeatsAt(initial, log, n, group, id) then 1 else 0)
  }

  function BlindListings(initial: string -> set<string>, log: Log, group: string, id: string): nat {
    if log == [] then 0
    else
      var n := |log| - 1;
      BlindListings(initial, log[..n], group, id) + (if BlindAt(initial, log, n, group, id) then 1 else 0)
  }

  /** Between two points of the log both have grown by the same number. */
  predicate Balanced(initial: string -> set<string>, log: Log, next: Log, group: string, id: string) {
    && log <= next
    && Repeats(initial, next, group, id) - Repeats(initial, log, group, id)
       == BlindListings(initial, next, group, id) - BlindListings(initial, log, group, id)
  }

  lemma OneMoreCount(initial: string -> set<string>, log: Log, e: Event, group: string, id: string)
    ensures var held := id in Members(initial, log, group);
      && Repeats(initial, log + [e], group, id)
         == Repeats(initial, log, group, id) + (if held && AsksToRegister(e, group, id) then 1 else 0)
      && BlindListings(initial, log + [e], group, id)
         == BlindListings(initial, log, group, id) + (if held && FailsToList(e, group) then 1 else 0)
  {
    assert (log + [e])[..|log|] == log;
  }

  lemma {:induction false} OneGroupRepeats(w: World, initial: string -> set<string>, log: Log, g: TargetGroup,
                                           instance: Instance, group: string, id: string)
    requires Truthful(w, initial, group)
    requires g.arn == group ==> TargetID(g, instance) == id
    ensures Balanced(initial, log, RegisterOne(w, log, g, instance).log, group, id)
  {
    hide Truthful, Repeats, BlindListings, Members;
    var target := TargetID(g, instance);
    var health := w.describeTargetHealth(log, g.arn);
    var e := DescribeTargetHealth(g.arn, health);
    OneMoreEvent(initial, log, e, group, id);
    OneMoreCount(initial, log, e, group, id);
    if g.arn == group && health.Ok? {
      ListingIsRight(w, initial, log, group, target);
    }
    if !(health.Ok? && target in health.value) {
      var ok := w.registerTargets(log + [e], g.arn, target);
      OneMoreCount(initial, log + [e], RegisterTargets(g.arn, target, ok), group, id);
    }
  }

  /** Over one pass, the registrations asked for in vain are exactly as many as the listings of the group that
      failed while it held the target. */
  lemma {:induction false} PassRepeats(w: World, initial: string -> set<string>, log: Log, groups: seq<TargetGroup>,
                                       instance: Instance, group: string, id: string)
    requires Truthful(w, initial, group)
    requires forall g :: g in groups && g.arn == group ==> TargetID(g, instance) == id
    ensures Balanced(initial, log, RegisterAll(w, log, groups, instance).log, group, id)
    decreases |groups|
  {
    hide Truthful, RegisterOne, TargetID, Repeats, BlindListings;
    if groups != [] {
      assert groups[0] in groups && forall g :: g in groups[1..] ==> g in groups;
      OneGroupRepeats(w, initial, log, groups[0], instance, group, id);
      PassRepeats(w, initial, RegisterOne(w, log, groups[0], instance).log, groups[1..], instance, group, id);
    }
  }

  lemma {:induction false} GatheringIsBalanced(w: World, initial: string -> set<string>, log: Log,
                                               balancers: seq<string>, gathered: seq<TargetGroup>,
                                               group: string, id: string)
    ensures Balanced(initial, log, GatherGroups(w, log, balancers, gathered).log, group, id)
    decreases |balancers|
  {
    hide Repeats, BlindListings;
    if balancers != [] {
      var reply := w.describeTargetGroups(log, balancers[0]);
      var e := DescribeTargetGroups(balancers[0], reply);
      OneMoreCount(initial, log, e, group, id);
      if reply.Ok? {
        GatheringIsBalanced(w, initial, log + [e], balancers[1..], gathered + reply.value, group, id);
      }
    }
  }

  lemma {:induction false} LookupIsBalanced(w: World, initial: string -> set<string>, log: Log, names: seq<string>,
                                            group: string, id: string)
    ensures Balanced(initial, log, GatherTargetGroups(w, log, names).log, group, id)
  {
    hide Repeats, BlindListings;
    var reply := w.describeLoadBalancers(log, names);
    var e := DescribeLoadBalancers(names, reply);
    OneMoreCount(initial, log, e, group, id);
    if reply.Ok? {
      GatheringIsBalanced(w, initial, log + [e], reply.value, [], group, id);
    }
  }

  lemma {:induction false} CountsShowEvents(initial: string -> set<string>, log: Log, next: Log,
                                            group: string, id: string)
    requires log <= next
    ensures 0 <= Repeats(initial, next, group, id) - Repeats(initial, log, group, id)
    ensures 0 <= BlindListings(initial, next, group, id) - BlindListings(initial, log, group, id)
    ensures Repeats(initial, next, group, id) > Repeats(initial, log, group, id) <==>
      exists k :: |log| <= k < |next| && RepeatsAt(initial, next, k, group, id)
    ensures BlindListings(initial, next, group, id) > BlindListings(initial, log, group, id) <==>
      exists k :: |log| <= k < |next| && BlindAt(initial, next, k, group, id)
    decreases |next|
  {
    hide Members;
    if |next| == |log| {
      assert next == log;
    } else {
      var n := |next| - 1;
      CountsShowEvents(initial, log, next[..n], group, id);
      forall k | 0 <= k < n
        ensures RepeatsAt(initial, next, k, group, id) <==> RepeatsAt(initial, next[..n], k, group, id)
        ensures BlindAt(initial, next, k, group, id) <==> BlindAt(initial, next[..n], k, group, id)
      {
        assert next[..n][..k] == next[..k];
      }
    }
  }

  /** When a whole call asks for a registration that a group already has: exactly when a listing of that group fails
      while the group holds the target, and as often. */
  lemma {:induction false} CallRepeatsExactlyWhen(w: World, initial: string -> set<string>, log: Log,
                                                  names: seq<string>, instance: Instance, group: string, id: string)
    requires Truthful(w, initial, group)
    requires forall g :: g in GatherTargetGroups(w, log, names).value.GetOr([]) && g.arn == group ==>
      TargetID(g, instance) == id
    ensures var next := RegisterNetwork(w, log, names, instance).log;
      && Balanced(initial, log, next, group, id)
      && ((exists k :: |log| <= k < |next| && RepeatsAt(initial, next, k, group, id)) <==>
          (exists k :: |log| <= k < |next| && BlindAt(initial, next, k, group, id)))
  {
    hide Truthful, Repeats, BlindListings, RepeatsAt, BlindAt, GatherTargetGroups, RegisterAll;
    var gathered := GatherTargetGroups(w, log, names);
    LookupIsBalanced(w, initial, log, names, group, id);
    if gathered.value.Some? {
      PassRepeats(w, initial, gathered.log, gathered.value.value, instance, group, id);
    }
    CountsShowEvents(initial, log, RegisterNetwork(w, log, names, instance).log, group, id);
  }

  // ---- When all listings can be read ----

  ghost predicate Readable(w: World, group: string) {
    forall log: Log :: w.describeTargetHealth(log, group).Ok?
  }

  predicate NoRequests(log: Log, next: Log) {
    log <= next && forall k :: |log| <= k < |next| ==> !next[k].RegisterTargets?
  }

  /** A pass over groups that hold their targets, with right and readable listings, succeeds and asks for nothing. */
  lemma {:induction false} SettledGroupsAreLeftAlone(w: World, initial: string -> set<string>, log: Log,
                                                     groups: seq<TargetGroup>,
                                                     instance: Instance)
    requires forall g :: g in groups ==> Truthful(w, initial, g.arn) && Readable(w, g.arn)
    requires forall g :: g in groups ==> TargetID(g, instance) in Members(initial, log, g.arn)
    ensures var o := RegisterAll(w, log, groups, instance);
      o.value && NoRequests(log, o.log)
    decreases |groups|
  {
    hide Truthful, TallyOf, TargetID;
    if groups != [] {
      var g := groups[0];
      assert g in groups;
      ListingIsRight(w, initial, log, g.arn, TargetID(g, instance));
      var first := RegisterOne(w, log, g, instance);
      forall x | x in groups[1..]
        ensures TargetID(x, instance) in Members(initial, first.log, x.arn)
      {
        assert x in groups;
        OneGroupConverges(w, initial, log, g, instance, x.arn, "");
      }
      SettledGroupsAreLeftAlone(w, initial, first.log, groups[1..], instance);
    }
  }

  lemma {:induction false} GatheringAsksForNothing(w: World, log: Log, balancers: seq<string>,
                                                   gathered: seq<TargetGroup>)
    ensures NoRequests(log, GatherGroups(w, log, balancers, gathered).log)
    decreases |balancers|
  {
    if balancers != [] {
      var reply := w.describeTargetGroups(log, balancers[0]);
      if reply.Ok? {
        GatheringAsksForNothing(w, log + [DescribeTargetGroups(balancers[0], reply)], balancers[1..],
                                gathered + reply.value);
      }
    }
  }

  /** A second call over groups of the first one, at any later time before which nothing was removed: it fails only
      if its own lookups do, and registers nothing. */
  lemma {:induction false} SecondCallIsSilent(w: World, initial: string -> set<string>, log: Log, names: seq<string>,
                                              later: Log, again: seq<string>, instance: Instance)
    requires RegisterNetwork(w, log, names, instance).value
    requires NothingRemoved(RegisterNetwork(w, log, names, instance).log, later)
    requires forall g :: g in GatherTargetGroups(w, later, again).value.GetOr([]) ==>
      g in GatherTargetGroups(w, log, names).value.GetOr([]) && Truthful(w, initial, g.arn) && Readable(w, g.arn)
    ensures var second := RegisterNetwork(w, later, again, instance);
      && (second.value <==> GatherTargetGroups(w, later, again).value.Some?)
      && NoRequests(later, second.log)
  {
    hide Truthful, Readable, TargetID, TallyOf, Members, GatherGroups, RegisterAll;
    var reply := w.describeLoadBalancers(later, again);
    if reply.Ok? {
      GatheringAsksForNothing(w, later + [DescribeLoadBalancers(again, reply)], reply.value, []);
    }
    var gathered := GatherTargetGroups(w, later, again);
    if gathered.value.Some? {
      forall g | g in gathered.value.value
        ensures TargetID(g, instance) in Members(initial, gathered.log, g.arn)
      {
        NilErrorMeansMember(w, initial, log, names, instance, g);
        MembersStay(initial, RegisterNetwork(w, log, names, instance).log, later, g.arn);
        LookupKeepsGroups(w, initial, later, again, g.arn, "");
      }
      SettledGroupsAreLeftAlone(w, initial, gathered.log, gathered.value.value, instance);
    }
  }

  /** The repetition is real: a group listed twice, whose health cannot be read, gains the target twice. */
  lemma UnreadableListingRegistersTwice(w: World, log: Log, g: TargetGroup, instance: Instance)
    requires forall l: Log :: w.describeTargetHealth(l, g.arn).Err?
    requires forall l: Log, id: string :: w.registerTargets(l, g.arn, id)
    ensures var since := Since(log, RegisterAll(w, log, [g, g], instance).log, g.arn, TargetID(g, instance));
      since.accepted == 2 && since.unreadable == 2
  {
    var id := TargetID(g, instance);
    var first := RegisterOne(w, log, g, instance);
    var second := RegisterOne(w, first.log, g, instance);
    UnreadableListingRegisters(w, log, g, instance);
    UnreadableListingRegisters(w, first.log, g, instance);
    assert [g, g][1..] == [g] && [g][1..] == [];
    assert RegisterAll(w, second.log, [], instance).log == second.log;
    assert RegisterAll(w, first.log, [g], instance).log == second.log;
  }

  lemma UnreadableListingRegisters(w: World, log: Log, g: TargetGroup, instance: Instance)
    requires w.describeTargetHealth(log, g.arn).Err?
    requires forall l: Log, id: string :: w.registerTargets(l, g.arn, id)
    ensures Since(log, RegisterOne(w, log, g, instance).log, g.arn, TargetID(g, instance)) == Tally(1, 1, 1)
  {
    var health := w.describeTargetHealth(log, g.arn);
    var id := TargetID(g, instance);
    OneMoreEvent(x => {}, log, DescribeTargetHealth(g.arn, health), g.arn, id);
    OneMoreEvent(x => {}, log + [DescribeTargetHealth(g.arn, health)], RegisterTargets(g.arn, id, true), g.arn, id);
  }
}
