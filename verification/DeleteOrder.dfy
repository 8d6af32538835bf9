/** What must have happened before an instance is terminated or a host released, over every run
    (pkg/actuators/machine/reconciler.go, pkg/actuators/machine/loadbalancers.go). */
module DeleteOrder {
  import opened Wrappers
  import opened Cloud
  import opened ProviderSpec
  import opened Launch
  import opened LoadBalancers
  import opened Lookup
  import opened Steps
  import opened Runs
  import opened Effects
  import opened Quietness

  // ---- Deregistration as seen in the log ----

  /** Between two points of the log AWS confirmed that the address is not in the group. */
  predicate Removed(log: Log, from: nat, to: nat, group: string, ip: string) {
    exists k :: from <= k < to && k < |log| && Removes(log[k], group, ip)
  }

  predicate Removes(e: Event, group: string, ip: string) {
    && e.DeregisterTargets? && e.group == group && e.target == ip
    && e.deregistered in {Deregistered, InvalidTarget, GroupNotFound}
  }

  /** The groups of a load balancer were listed, and the address was removed from every IP-type one of them. */
  predicate BalancerCleared(log: Log, from: nat, to: nat, balancer: string, ip: string) {
    exists k :: from <= k < to && k < |log| && ListsGroups(log[k], balancer)
                && forall g :: g in log[k].groups.value && g.targetType.IPTarget? ==> Removed(log, from, to, g.arn, ip)
  }

  predicate ListsGroups(e: Event, balancer: string) {
    e.DescribeTargetGroups? && e.balancer == balancer && e.groups.Ok?
  }

  /** The named load balancers were looked up, and the address was removed from all their IP-type groups. */
  predicate Cleared(log: Log, from: nat, to: nat, names: seq<string>, ip: string) {
    exists k :: from <= k < to && k < |log| && ListsBalancers(log[k], names)
                && forall b :: b in log[k].balancers.value ==> BalancerCleared(log, from, to, b, ip)
  }

  predicate ListsBalancers(e: Event, names: seq<string>) {
    e.DescribeLoadBalancers? && e.names == names && e.balancers.Ok?
  }

  lemma ClearedLater(log: Log, next: Log, from: nat, to: nat, from': nat, to': nat, names: seq<string>, ip: string)
    requires log <= next && from' <= from && to <= to' && Cleared(log, from, to, names, ip)
    ensures Cleared(next, from', to', names, ip)
  {
    var k :| from <= k < to && k < |log| && ListsBalancers(log[k], names)
             && forall b :: b in log[k].balancers.value ==> BalancerCleared(log, from, to, b, ip);
    assert next[k] == log[k];
    forall b | b in next[k].balancers.value
      ensures BalancerCleared(next, from', to', b, ip)
    {
      var j :| from <= j < to && j < |log| && ListsGroups(log[j], b)
               && forall g :: g in log[j].groups.value && g.targetType.IPTarget? ==> Removed(log, from, to, g.arn, ip);
      assert next[j] == log[j];
      forall g | g in next[j].groups.value && g.targetType.IPTarget?
        ensures Removed(next, from', to', g.arn, ip)
      {
        var i :| from <= i < to && i < |log| && Removes(log[i], g.arn, ip);
        assert next[i] == log[i];
      }
    }
  }

  // ---- One deregistration call ----

  /** Every balancer's groups were listed after the given point, and all listed groups were gathered. */
  predicate Gathered(log: Log, from: nat, balancers: seq<string>, groups: seq<TargetGroup>) {
    forall b :: b in balancers ==>
      exists k :: from <= k < |log| && ListsGroups(log[k], b) && forall g :: g in log[k].groups.value ==> g in groups
  }

  lemma {:induction false} GatheringMeaning(w: World, log: Log, balancers: seq<string>, earlier: seq<TargetGroup>)
    ensures var o := GatherGroups(w, log, balancers, earlier);
      && log <= o.log
      && (o.value.Some? ==>
            Gathered(o.log, |log|, balancers, o.value.value) && forall g :: g in earlier ==> g in o.value.value)
    decreases |balancers|
  {
    if balancers != [] {
      var reply := w.describeTargetGroups(log, balancers[0]);
      var next := log + [DescribeTargetGroups(balancers[0], reply)];
      if reply.Ok? {
        var o := GatherGroups(w, next, balancers[1..], earlier + reply.value);
        GatheringMeaning(w, next, balancers[1..], earlier + reply.value);
        if o.value.Some? {
          forall b | b in balancers
            ensures exists k ::
              |log| <= k < |o.log| && ListsGroups(o.log[k], b) &&
              forall g :: g in o.log[k].groups.value ==> g in o.value.value
          {
            if b == balancers[0] {
              assert o.log[|log|] == DescribeTargetGroups(b, reply);
              assert ListsGroups(o.log[|log|], b);
            } else {
              assert b in balancers[1..];
            }
          }
        }
      }
    }
  }

  lemma {:induction false} DeregisteringMeaning(w: World, log: Log, groups: seq<TargetGroup>, ip: string)
    ensures var o := DeregisterAll(w, log, groups, ip);
      log <= o.log && (o.value ==> forall g :: g in groups ==> Removed(o.log, |log|, |o.log|, g.arn, ip))
    decreases |groups|
  {
    if groups != [] {
      var reply := w.deregisterTargets(log, groups[0].arn, ip);
      var next := log + [DeregisterTargets(groups[0].arn, ip, reply)];
      var o := DeregisterAll(w, next, groups[1..], ip);
      DeregisteringMeaning(w, next, groups[1..], ip);
      if Gone(reply) && o.value {
        forall g | g in groups
          ensures Removed(o.log, |log|, |o.log|, g.arn, ip)
        {
          if g == groups[0] {
            assert Removes(o.log[|log|], g.arn, ip);
          } else {
            assert g in groups[1..];
          }
        }
      }
    }
  }

  /** A nil error for an instance with an address: its address is out of every IP-type group of the named balancers. */
  lemma DeregisterMeaning(w: World, log: Log, names: seq<string>, instance: Instance)
    ensures var o := DeregisterNetwork(w, log, names, instance);
      && log <= o.log
      && (o.value && instance.privateIP.Some? ==> Cleared(o.log, |log|, |o.log|, names, instance.privateIP.value))
      && (instance.privateIP.None? ==> o == Out(true, log))
  {
    DeregisteringOneIsQuiet(w, log, names, instance);
    var o := DeregisterNetwork(w, log, names, instance);
    if o.value && instance.privateIP.Some? {
      var ip := instance.privateIP.value;
      var reply := w.describeLoadBalancers(log, names);
      var listed := log + [DescribeLoadBalancers(names, reply)];
      var gathered := GatherGroups(w, listed, reply.value, []);
      var groups := gathered.value.value;
      GatheringMeaning(w, listed, reply.value, []);
      DeregisteringMeaning(w, gathered.log, IPGroups(groups), ip);
      assert o.log[|log|] == DescribeLoadBalancers(names, reply);
      forall b | b in reply.value
        ensures BalancerCleared(o.log, |log|, |o.log|, b, ip)
      {
        var k :| |listed| <= k < |gathered.log| && ListsGroups(gathered.log[k], b)
          && forall g :: g in gathered.log[k].groups.value ==> g in groups;
        assert o.log[k] == gathered.log[k];
        forall g | g in o.log[k].groups.value && g.targetType.IPTarget?
          ensures Removed(o.log, |log|, |o.log|, g.arn, ip)
        {
          IPGroupsMeaning(groups, g);
          var j :| |gathered.log| <= j < |o.log| && Removes(o.log[j], g.arn, ip);
        }
      }
      assert ListsBalancers(o.log[|log|], names);
    }
  }

  /** A nil error for all instances: every one that has an address is out of every IP-type group. */
  predicate AllCleared(log: Log, from: nat, to: nat, names: seq<string>, instances: seq<Instance>) {
    forall i :: i in instances && i.privateIP.Some? ==> Cleared(log, from, to, names, i.privateIP.value)
  }

  lemma {:induction false} DetachMeaning(w: World, log: Log, names: seq<string>, instances: seq<Instance>)
    ensures var o := DetachAll(w, log, names, instances);
      log <= o.log && (o.value ==> AllCleared(o.log, |log|, |o.log|, names, instances))
    decreases |instances|
  {
    if instances != [] {
      var first := DeregisterNetwork(w, log, names, instances[0]);
      var o := DetachAll(w, first.log, names, instances[1..]);
      DeregisterMeaning(w, log, names, instances[0]);
      DetachMeaning(w, first.log, names, instances[1..]);
      if first.value && o.value {
        forall i | i in instances && i.privateIP.Some?
          ensures Cleared(o.log, |log|, |o.log|, names, i.privateIP.value)
        {
          var ip := i.privateIP.value;
          if i == instances[0] {
            ClearedLater(first.log, o.log, |log|, |first.log|, |log|, |o.log|, names, ip);
          } else {
            assert i in instances[1..];
            ClearedLater(o.log, o.log, |first.log|, |o.log|, |log|, |o.log|, names, ip);
          }
        }
      }
    }
  }

  // ---- One delete step ----

  /** The instances a delete step finds. */
  function Found(w: World, s: System, step: Step): Option<seq<Instance>> {
    MachineInstances(w, s.log, step.input.machine, s.stored.instanceID).value
  }

  /** The names of the configured network load balancers. */
  function NetworkNames(step: Step): seq<string> {
    Names(step.input.spec.loadBalancers, Network)
  }

  /** What position k of the log shows when a delete step terminates there: the request is for exactly the instances
      found, the first of which is not terminated, and each one's address was removed before. */
  predicate TerminatedByDelete(w: World, s: System, step: Step, log: Log, k: nat) {
    && k < |log| && log[k].TerminateInstances?
    && step.kind.Deleting?
    && Found(w, s, step).Some? && Found(w, s, step).value != []
    && !IsTerminated(Found(w, s, step).value[0])
    && NamesExactly(log[k].ids, Found(w, s, step).value)
    && (NetworkNames(step) != [] ==> AllCleared(log, |s.log|, k, NetworkNames(step), Found(w, s, step).value))
  }

  /** What position k shows when the recorded host is released there: the step found the first instance terminated. */
  predicate ReleasedByDelete(w: World, s: System, step: Step, log: Log, k: nat) {
    && k < |log| && log[k].ReleaseHosts?
    && step.kind.Deleting?
    && Found(w, s, step).Some? && Found(w, s, step).value != []
    && IsTerminated(Found(w, s, step).value[0])
    && log[k].host == HostOf(s.stored) != ""
    && (forall j :: |s.log| <= j < |log| ==> !log[j].TerminateInstances?)
  }

  /** A delete step terminates only after deregistering, releases only the recorded host of a terminated instance
      without terminating anything, and forgets the host exactly when AWS released it. */
  lemma DeleteStepOrder(w: World, s: System, step: Step)
    requires step.kind.Deleting?
    ensures var o := Perform(w, s, step);
      && s.log <= o.log
      && (forall k :: |s.log| <= k < |o.log| && o.log[k].TerminateInstances? ==>
         TerminatedByDelete(w, s, step, o.log, k))
      && (forall k :: |s.log| <= k < |o.log| && o.log[k].ReleaseHosts? ==> ReleasedByDelete(w, s, step, o.log, k))
      && (HostOf(o.value.rec) != HostOf(s.stored) <==>
            exists k :: |s.log| <= k < |o.log| && o.log[k].ReleaseHosts? && ReleaseSucceeded(o.log[k].released))
  {
    hide MachineInstances, Detach, IDs, AllCleared, NetworkNames, CreateStep, UpdateStep, ExistsStep;
    var input, rec := step.input, s.stored;
    var found := MachineInstances(w, s.log, input.machine, rec.instanceID);
    LookingUpIsQuiet(w, s.log, input.machine, rec.instanceID);
    var o := Perform(w, s, step);
    if found.value.Some? && found.value.value != [] {
      var instances := found.value.value;
      if IsTerminated(instances[0]) {
        if HostOf(rec) != "" {
          assert o.log == found.log + [ReleaseHosts(HostOf(rec), w.releaseHosts(found.log, HostOf(rec)))];
          OnlyTheLast(s.log, found.log, o.log);
          assert o.log[|found.log|].ReleaseHosts?;
        }
      } else {
        var detached := Detach(w, found.log, input.spec.loadBalancers, instances);
        DetachingNamedIsQuiet(w, found.log, input.spec.loadBalancers, instances);
        QuietTwice(s.log, found.log, detached.log);
        if detached.value {
          var ids := IDs(instances);
          assert o.log == detached.log + [TerminateInstances(ids, w.terminateInstances(detached.log, ids))];
          ClearedBeforeTerminating(w, s, step, found.log, instances);
          FoundExist(w, s.log, input.machine, rec.instanceID);
          IDsMeaning(instances, EXISTING_STATES);
          assert TerminatedByDelete(w, s, step, o.log, |detached.log|);
          OnlyTheLast(s.log, detached.log, o.log);
        }
      }
    }
  }

  /** When a recorded host outlives a delete step, and when such a step still reports success: the lookup found nothing,
      AWS did not carry out the release, or the instances were only now told to terminate. */
  lemma {:induction false} HostStaysExactlyWhen(w: World, s: System, step: Step)
    requires step.kind.Deleting? && HostOf(s.stored) != ""
    ensures var found := MachineInstances(w, s.log, step.input.machine, s.stored.instanceID);
      var next, failure := Next(w, s, step), Perform(w, s, step).value.failure;
      var refused := !ReleaseSucceeded(w.releaseHosts(found.log, HostOf(s.stored)));
      var detached := Detach(w, found.log, step.input.spec.loadBalancers, found.value.GetOr([]));
      && (HostOf(next.stored) == HostOf(s.stored) <==>
            || !step.patch.Patched? || found.value.None? || found.value.value == []
            || !IsTerminated(found.value.value[0]) || refused)
      && (failure == None && step.patch.Patched? && HostOf(next.stored) == HostOf(s.stored) <==>
            && step.patch.Patched? && found.value.Some?
            && (|| found.value.value == []
                || (IsTerminated(found.value.value[0]) && refused)
                || (&& !IsTerminated(found.value.value[0]) && detached.value
                    && Terminate(w, detached.log, found.value.value).value.Some?)))
  {
    hide MachineInstances, Detach, Terminate, CreateStep, UpdateStep, ExistsStep;
  }

  /** A log that grew quietly up to its last entry. */
  lemma OnlyTheLast(log: Log, quiet: Log, next: Log)
    requires Quiet(log, quiet) && quiet <= next && |next| == |quiet| + 1
    ensures forall k :: |log| <= k < |quiet| ==> Harmless(next[k])
  {
    forall k | |log| <= k < |quiet| ensures Harmless(next[k]) {
      assert next[k] == quiet[k];
    }
  }

  lemma ClearedBeforeTerminating(w: World, s: System, step: Step, log: Log, instances: seq<Instance>)
    requires s.log <= log
    requires Detach(w, log, step.input.spec.loadBalancers, instances).value
    ensures var detached := Detach(w, log, step.input.spec.loadBalancers, instances);
      && log <= detached.log
      && forall next | detached.log <= next ::
           NetworkNames(step) != [] ==> AllCleared(next, |s.log|, |detached.log|, NetworkNames(step), instances)
  {
    var names := NetworkNames(step);
    var detached := Detach(w, log, step.input.spec.loadBalancers, instances);
    DetachingNamedIsQuiet(w, log, step.input.spec.loadBalancers, instances);
    if names != [] {
      DetachMeaning(w, log, names, instances);
      forall next, i | detached.log <= next && i in instances && i.privateIP.Some?
        ensures Cleared(next, |s.log|, |detached.log|, names, i.privateIP.value)
      {
        ClearedLater(detached.log, next, |log|, |detached.log|, |s.log|, |detached.log|, names, i.privateIP.value);
      }
    }
  }
}
