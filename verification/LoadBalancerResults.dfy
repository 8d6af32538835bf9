/** What calls to load balancers ask for and when they report an error, told request by request
    (pkg/actuators/machine/loadbalancers.go, pkg/actuators/machine/reconciler.go). */
module LoadBalancerResults {
  import opened Wrappers
  import opened Cloud
  import opened ProviderSpec
  import opened LoadBalancers
  import opened Registration
  import opened Steps

  /** A request to a load balancer that AWS did not carry out; a target that is not in its group counts as removed. */
  predicate Fails(e: Event) {
    || (e.DescribeLoadBalancers? && e.balancers.Err?)
    || (e.DescribeTargetGroups? && e.groups.Err?)
    || (e.DescribeTargetHealth? && e.targets.Err?)
    || (e.RegisterTargets? && !e.registered)
    || (e.RegisterClassic? && !e.attached)
    || (e.DeregisterTargets? && e.deregistered == DeregisterError)
  }

  predicate AllWell(log: Log, next: Log) {
    forall k :: |log| <= k < |next| ==> !Fails(next[k])
  }

  lemma WellInParts(log: Log, next: Log, last: Log)
    requires log <= next <= last
    ensures AllWell(log, last) <==> AllWell(log, next) && AllWell(next, last)
  {
    assert forall k :: |log| <= k < |next| ==> last[k] == next[k];
  }

  // ---- The names of load balancers ----

  lemma {:induction false} NamesMeaning(lbs: seq<LoadBalancer>, kind: LoadBalancerType, name: string)
    ensures name in Names(lbs, kind) <==> LoadBalancer(name, kind) in lbs
  {
    if lbs != [] {
      var n := |lbs| - 1;
      NamesMeaning(lbs[..n], kind, name);
      assert lbs == lbs[..n] + [lbs[n]];
    }
  }

  /** The names keep the order of the spec. */
  lemma {:induction false} NamesJoin(a: seq<LoadBalancer>, b: seq<LoadBalancer>, kind: LoadBalancerType)
    ensures Names(a + b, kind) == Names(a, kind) + Names(b, kind)
  {
    if b == [] {
      assert a + b == a;
    } else {
      var n := |b| - 1;
      assert (a + b)[..|a + b| - 1] == a + b[..n];
      NamesJoin(a, b[..n], kind);
    }
  }

  // ---- Gathering ----

  /** The group is in a listing of one of these balancers. */
  predicate ListedFor(log: Log, from: nat, balancers: seq<string>, g: TargetGroup) {
    exists k :: from <= k < |log| && log[k].DescribeTargetGroups? && log[k].balancer in balancers
                && log[k].groups.Ok? && g in log[k].groups.value
  }

  lemma {:induction false} GatheringResult(w: World, log: Log, balancers: seq<string>, earlier: seq<TargetGroup>)
    ensures var o := GatherGroups(w, log, balancers, earlier);
      && log <= o.log && (o.value.Some? <==> AllWell(log, o.log))
      && (forall k :: |log| <= k < |o.log| ==> o.log[k].DescribeTargetGroups? && o.log[k].balancer in balancers)
      && (o.value.Some? ==>
            && (forall g :: g in earlier ==> g in o.value.value)
            && (forall g :: g in o.value.value <==> g in earlier || ListedFor(o.log, |log|, balancers, g))
            && (forall b :: b in balancers ==> exists k :: |log| <= k < |o.log| && o.log[k].DescribeTargetGroups?
                                                           && o.log[k].balancer == b))
    decreases |balancers|
  {
    if balancers != [] {
      var reply := w.describeTargetGroups(log, balancers[0]);
      var next := log + [DescribeTargetGroups(balancers[0], reply)];
      if reply.Ok? {
        GatheringResult(w, next, balancers[1..], earlier + reply.value);
        var o := GatherGroups(w, next, balancers[1..], earlier + reply.value);
        WellInParts(log, next, o.log);
        assert next[|log|] == o.log[|log|];
        if o.value.Some? {
          forall g ensures g in o.value.value <==> g in earlier || ListedFor(o.log, |log|, balancers, g) {
            ListedInParts(o.log, |log|, balancers, g);
          }
          forall b | b in balancers
            ensures exists k :: |log| <= k < |o.log| && o.log[k].DescribeTargetGroups? && o.log[k].balancer == b
          {
            if b != balancers[0] {
              assert b in balancers[1..];
            }
          }
        }
      } else {
        assert Fails(next[|log|]);
      }
    }
  }

  lemma ListedInParts(log: Log, from: nat, balancers: seq<string>, g: TargetGroup)
    requires balancers != [] && from < |log|
    requires log[from].DescribeTargetGroups? && log[from].balancer == balancers[0] && log[from].groups.Ok?
    requires forall k :: from < k < |log| ==> log[k].DescribeTargetGroups? && log[k].balancer in balancers[1..]
    ensures ListedFor(log, from, balancers, g) <==>
            g in log[from].groups.value || ListedFor(log, from + 1, balancers[1..], g)
  {
    if ListedFor(log, from, balancers, g) {
      var k :| from <= k < |log| && log[k].DescribeTargetGroups? && log[k].balancer in balancers
               && log[k].groups.Ok? && g in log[k].groups.value;
      if k > from {
        assert log[k].balancer in balancers[1..];
      }
    }
    if ListedFor(log, from + 1, balancers[1..], g) {
      var k :| from + 1 <= k < |log| && log[k].DescribeTargetGroups? && log[k].balancer in balancers[1..]
               && log[k].groups.Ok? && g in log[k].groups.value;
      assert log[k].balancer in balancers;
    }
  }

  /** The groups gathered for some names: those that AWS listed for the balancers it gave for these names, all of
      them and no other, unless a request failed. */
  lemma {:induction false} LookupResult(w: World, log: Log, names: seq<string>)
    ensures var o := GatherTargetGroups(w, log, names);
      && |log| < |o.log| && log <= o.log && (o.value.Some? <==> AllWell(log, o.log))
      && o.log[|log|] == DescribeLoadBalancers(names, w.describeLoadBalancers(log, names))
      && (forall k :: |log| < k < |o.log| ==> o.log[k].DescribeTargetGroups?)
      && (o.value.Some? ==>
            && o.log[|log|].balancers.Ok?
            && forall g :: g in o.value.value <==> ListedFor(o.log, |log| + 1, o.log[|log|].balancers.value, g))
  {
    var reply := w.describeLoadBalancers(log, names);
    var next := log + [DescribeLoadBalancers(names, reply)];
    if reply.Ok? {
      GatheringResult(w, next, reply.value, []);
      WellInParts(log, next, GatherGroups(w, next, reply.value, []).log);
    } else {
      assert Fails(next[|log|]);
    }
  }

  // ---- Registration ----

  /** What an instance is to a group: itself to instance groups, its private address to groups of addresses. */
  predicate RightTarget(g: TargetGroup, instance: Instance, target: string) {
    match g.targetType
    case InstanceTarget => instance.id.Some? ==> target == instance.id.value
    case IPTarget => instance.privateIP.Some? ==> target == instance.privateIP.value
  }

  lemma {:induction false} RegisterAllResult(w: World, log: Log, groups: seq<TargetGroup>, instance: Instance)
    ensures var o := RegisterAll(w, log, groups, instance);
      && log <= o.log && (o.value <==> AllWell(log, o.log))
      && (forall k :: |log| <= k < |o.log| ==>
            || o.log[k].DescribeTargetHealth?
            || (o.log[k].RegisterTargets?
                && exists g :: g in groups && g.arn == o.log[k].group && RightTarget(g, instance, o.log[k].target)))
    decreases |groups|
  {
    if groups != [] {
      var g := groups[0];
      var first := RegisterOne(w, log, g, instance);
      var o := RegisterAll(w, first.log, groups[1..], instance);
      RegisterAllResult(w, first.log, groups[1..], instance);
      RegisterOneResult(w, log, g, instance);
      WellInParts(log, first.log, o.log);
      hide RegisterOne, AllWell, RightTarget;
      forall k | |log| <= k < |o.log| && o.log[k].RegisterTargets?
        ensures exists g :: g in groups && g.arn == o.log[k].group && RightTarget(g, instance, o.log[k].target)
      {
        if k < |first.log| {
          assert o.log[k] == first.log[k];
          assert g in groups;
        } else {
          var x :| x in groups[1..] && x.arn == o.log[k].group && RightTarget(x, instance, o.log[k].target);
          assert x in groups;
        }
      }
    }
  }

  lemma RegisterOneResult(w: World, log: Log, g: TargetGroup, instance: Instance)
    ensures var o := RegisterOne(w, log, g, instance);
      && log <= o.log && (o.value <==> AllWell(log, o.log))
      && (forall k :: |log| <= k < |o.log| ==>
            || o.log[k].DescribeTargetHealth?
            || (o.log[k].RegisterTargets? && g.arn == o.log[k].group && RightTarget(g, instance, o.log[k].target)))
  {
    var o := RegisterOne(w, log, g, instance);
    var health := w.describeTargetHealth(log, g.arn);
    assert o.log[|log|] == DescribeTargetHealth(g.arn, health);
    if !(health.Ok? && TargetID(g, instance) in health.value) {
      assert o.log[|log| + 1].RegisterTargets?;
    }
  }

  lemma {:induction false} ClassicResult(w: World, log: Log, names: seq<string>, id: string)
    ensures var o := RegisterClassicAll(w, log, names, id);
      && |o.log| == |log| + |names| && log <= o.log && (o.value <==> AllWell(log, o.log))
      && (forall k :: |log| <= k < |o.log| ==>
            o.log[k].RegisterClassic? && o.log[k].name == names[k - |log|] && o.log[k].instanceID == id)
    decreases |names|
  {
    if names != [] {
      var next := log + [RegisterClassic(names[0], id, w.registerClassic(log, names[0], id))];
      ClassicResult(w, next, names[1..], id);
      var o := RegisterClassicAll(w, log, names, id);
      assert Fails(next[|log|]) <==> !w.registerClassic(log, names[0], id);
      WellInParts(log, next, o.log);
      forall k | |log| <= k < |o.log|
        ensures o.log[k].RegisterClassic? && o.log[k].name == names[k - |log|] && o.log[k].instanceID == id
      {
        if k > |log| {
          assert names[1..][k - |next|] == names[k - |log|];
        } else {
          assert o.log[k] == next[k];
        }
      }
    }
  }

  /** Attaching an instance succeeds exactly when no request failed; it registers the instance with every classic
      balancer by its ID, in their order and first of all, and with groups only under the right target. */
  lemma {:induction false} AttachResult(w: World, log: Log, lbs: seq<LoadBalancer>, instance: Instance)
    ensures var o := Attach(w, log, lbs, instance);
      var classic := Names(lbs, Classic);
      && log <= o.log && |log| + |classic| <= |o.log| && (o.value <==> AllWell(log, o.log))
      && (forall k :: |log| <= k < |log| + |classic| ==>
            && o.log[k].RegisterClassic? && o.log[k].name == classic[k - |log|]
            && (instance.id.Some? ==> o.log[k].instanceID == instance.id.value))
      && (forall k :: |log| + |classic| <= k < |o.log| ==>
            && !o.log[k].RegisterClassic?
            && (o.log[k].RegisterTargets? ==>
                  exists g: TargetGroup :: g.arn == o.log[k].group && RightTarget(g, instance, o.log[k].target)))
      && (Names(lbs, Network) == [] ==> |o.log| == |log| + |classic|)
      && (Names(lbs, Network) != [] ==>
            |o.log| > |log| + |classic| && o.log[|log| + |classic|].DescribeLoadBalancers?
            && o.log[|log| + |classic|].names == Names(lbs, Network))
  {
    var id := instance.id.GetOr("");
    var classic := RegisterClassicAll(w, log, Names(lbs, Classic), id);
    var o := Attach(w, log, lbs, instance);
    ClassicResult(w, log, Names(lbs, Classic), id);
    if Names(lbs, Network) != [] {
      var gathered := GatherTargetGroups(w, classic.log, Names(lbs, Network));
      LookupResult(w, classic.log, Names(lbs, Network));
      hide RegisterAll, AllWell, RightTarget, GatherTargetGroups, RegisterClassicAll, Names;
      if gathered.value.Some? {
        var registered := RegisterAll(w, gathered.log, gathered.value.value, instance);
        RegisterAllResult(w, gathered.log, gathered.value.value, instance);
        WellInParts(classic.log, gathered.log, registered.log);
        WellInParts(log, classic.log, registered.log);
      } else {
        WellInParts(log, classic.log, gathered.log);
      }
    }
  }

  // ---- Deregistration ----

  /** The position asks to take this address out of a group. */
  predicate AsksToRemove(log: Log, k: nat, ip: string) {
    k < |log| && log[k].DeregisterTargets? && log[k].target == ip
  }

  lemma {:induction false} DeregisterAllResult(w: World, log: Log, groups: seq<TargetGroup>, ip: string)
    ensures var o := DeregisterAll(w, log, groups, ip);
      && |o.log| == |log| + |groups| && log <= o.log && (o.value <==> AllWell(log, o.log))
      && (forall k :: |log| <= k < |o.log| ==> AsksToRemove(o.log, k, ip) && o.log[k].group == groups[k - |log|].arn)
    decreases |groups|
  {
    if groups != [] {
      var next := log + [DeregisterTargets(groups[0].arn, ip, w.deregisterTargets(log, groups[0].arn, ip))];
      DeregisterAllResult(w, next, groups[1..], ip);
      var o := DeregisterAll(w, log, groups, ip);
      assert Fails(next[|log|]) <==> w.deregisterTargets(log, groups[0].arn, ip) == DeregisterError;
      WellInParts(log, next, o.log);
      forall k | |log| <= k < |o.log|
        ensures AsksToRemove(o.log, k, ip) && o.log[k].group == groups[k - |log|].arn
      {
        if k > |log| {
          assert groups[1..][k - |next|] == groups[k - |log|];
        } else {
          assert o.log[k] == next[k];
        }
      }
    }
  }

  /** Only this address is taken out between two points of the log, and only of groups of addresses among these; and
      of each of them it is. */
  predicate TakesOut(log: Log, next: Log, groups: seq<TargetGroup>, ip: string) {
    && (forall k :: |log| <= k < |next| && next[k].DeregisterTargets? ==>
          next[k].target == ip && exists g :: g in groups && g.arn == next[k].group && g.targetType == IPTarget)
    && (forall g :: g in groups && g.targetType == IPTarget ==>
          exists k :: |log| <= k < |next| && AsksToRemove(next, k, ip) && next[k].group == g.arn)
  }

  lemma {:induction false} FromIPGroups(w: World, log: Log, groups: seq<TargetGroup>, ip: string)
    ensures var o := DeregisterAll(w, log, IPGroups(groups), ip);
      && log <= o.log && (o.value <==> AllWell(log, o.log)) && TakesOut(log, o.log, groups, ip)
  {
    var byIP := IPGroups(groups);
    var o := DeregisterAll(w, log, byIP, ip);
    DeregisterAllResult(w, log, byIP, ip);
    forall g ensures g in byIP <==> g in groups && g.targetType == IPTarget {
      IPGroupsMeaning(groups, g);
    }
    hide DeregisterAll, IPGroups, AllWell;
    forall k | |log| <= k < |o.log|
      ensures o.log[k].target == ip && exists g :: g in groups && g.arn == o.log[k].group && g.targetType == IPTarget
    {
      assert AsksToRemove(o.log, k, ip) && byIP[k - |log|] in byIP;
    }
    forall g | g in byIP
      ensures exists k :: |log| <= k < |o.log| && AsksToRemove(o.log, k, ip) && o.log[k].group == g.arn
    {
      var i :| 0 <= i < |byIP| && byIP[i] == g;
      assert AsksToRemove(o.log, |log| + i, ip) && byIP[|log| + i - |log|] == g;
    }
  }

  lemma TakesOutLater(log: Log, next: Log, last: Log, groups: seq<TargetGroup>, ip: string)
    requires log <= next <= last && TakesOut(next, last, groups, ip)
    requires forall k :: |log| <= k < |next| ==> !next[k].DeregisterTargets?
    ensures TakesOut(log, last, groups, ip)
  {
    forall k | |log| <= k < |next| ensures !last[k].DeregisterTargets? {
      assert last[k] == next[k];
    }
  }

  /** Deregistering one instance succeeds exactly when no request failed; only its private address is taken out, only of
      groups of addresses that were gathered, and of each of these whatever happened to the ones before. */
  lemma {:induction false} DeregisterResult(w: World, log: Log, names: seq<string>, instance: Instance)
    ensures var o := DeregisterNetwork(w, log, names, instance);
      var gathered := GatherTargetGroups(w, log, names);
      && log <= o.log && (o.value <==> AllWell(log, o.log))
      && (instance.privateIP.None? ==> o.log == log)
      && (instance.privateIP.Some? ==> TakesOut(log, o.log, gathered.value.GetOr([]), instance.privateIP.value))
  {
    if instance.privateIP.Some? {
      var gathered := GatherTargetGroups(w, log, names);
      LookupResult(w, log, names);
      if gathered.value.Some? {
        var ip := instance.privateIP.value;
        var o := DeregisterAll(w, gathered.log, IPGroups(gathered.value.value), ip);
        FromIPGroups(w, gathered.log, gathered.value.value, ip);
        hide DeregisterAll, IPGroups, GatherTargetGroups, AllWell, TakesOut;
        WellInParts(log, gathered.log, o.log);
        TakesOutLater(log, gathered.log, o.log, gathered.value.value, ip);
      }
    }
  }

  lemma {:induction false} DetachAllResult(w: World, log: Log, names: seq<string>, instances: seq<Instance>)
    ensures var o := DetachAll(w, log, names, instances);
      && log <= o.log && (o.value <==> AllWell(log, o.log))
      && (forall k :: |log| <= k < |o.log| && o.log[k].DeregisterTargets? ==>
            exists i :: i in instances && i.privateIP == Some(o.log[k].target))
    decreases |instances|
  {
    if instances != [] {
      var first := DeregisterNetwork(w, log, names, instances[0]);
      var o := DetachAll(w, first.log, names, instances[1..]);
      DeregisterResult(w, log, names, instances[0]);
      DetachAllResult(w, first.log, names, instances[1..]);
      WellInParts(log, first.log, o.log);
      hide DeregisterNetwork, AllWell;
      forall k | |log| <= k < |o.log| && o.log[k].DeregisterTargets?
        ensures exists i :: i in instances && i.privateIP == Some(o.log[k].target)
      {
        if k < |first.log| {
          assert o.log[k] == first.log[k] && instances[0] in instances;
        } else {
          var i :| i in instances[1..] && i.privateIP == Some(o.log[k].target);
          assert i in instances;
        }
      }
    }
  }

  /** Detaching instances succeeds exactly when no request failed, and takes out nothing but their addresses. */
  lemma {:induction false} DetachResult(w: World, log: Log, lbs: seq<LoadBalancer>, instances: seq<Instance>)
    ensures var o := Detach(w, log, lbs, instances);
      && log <= o.log && (o.value <==> AllWell(log, o.log))
      && (Names(lbs, Network) == [] ==> o.log == log)
      && (forall k :: |log| <= k < |o.log| && o.log[k].DeregisterTargets? ==>
            exists i :: i in instances && i.privateIP == Some(o.log[k].target))
  {
    DetachAllResult(w, log, Names(lbs, Network), instances);
  }

  // ---- One undoes the other ----

  /** AWS reports a target or a group as missing only when the group does not hold the target. */
  ghost predicate HonestAbout(w: World, initial: string -> set<string>, group: string) {
    forall log: Log, ip: string :: w.deregisterTargets(log, group, ip) in {InvalidTarget, GroupNotFound} ==>
      ip !in Members(initial, log, group)
  }

  lemma {:induction false} DeregisterAllRemoves(w: World, initial: string -> set<string>, log: Log,
                                                groups: seq<TargetGroup>, ip: string, group: string)
    requires HonestAbout(w, initial, group)
    ensures var o := DeregisterAll(w, log, groups, ip);
      && Members(initial, o.log, group) <= Members(initial, log, group)
      && (o.value && (exists g :: g in groups && g.arn == group) ==> ip !in Members(initial, o.log, group))
    decreases |groups|
  {
    if groups != [] {
      var reply := w.deregisterTargets(log, groups[0].arn, ip);
      var e := DeregisterTargets(groups[0].arn, ip, reply);
      OneMoreEvent(initial, log, e, group, ip);
      DeregisterAllRemoves(w, initial, log + [e], groups[1..], ip, group);
      if g :| g in groups && g.arn == group && groups[0].arn != group {
        assert g in groups[1..];
      }
    }
  }

  /** What a successful registration added to a group of addresses, a later successful deregistration of the same
      instance takes out again, if it gathers the group. */
  lemma {:induction false} DeregistrationUndoesRegistration(w: World, initial: string -> set<string>, log: Log,
                                                            names: seq<string>, later: Log, again: seq<string>,
                                                            instance: Instance, g: TargetGroup)
    requires Truthful(w, initial, g.arn) && HonestAbout(w, initial, g.arn)
    requires g.targetType == IPTarget && instance.privateIP.Some?
    requires RegisterNetwork(w, log, names, instance).value
    requires g in GatherTargetGroups(w, log, names).value.GetOr([])
    requires DeregisterNetwork(w, later, again, instance).value
    requires g in GatherTargetGroups(w, later, again).value.GetOr([])
    ensures instance.privateIP.value in Members(initial, RegisterNetwork(w, log, names, instance).log, g.arn)
    ensures instance.privateIP.value !in Members(initial, DeregisterNetwork(w, later, again, instance).log, g.arn)
  {
    NilErrorMeansMember(w, initial, log, names, instance, g);
    var gathered := GatherTargetGroups(w, later, again);
    var groups := IPGroups(gathered.value.value);
    IPGroupsMeaning(gathered.value.value, g);
    assert g in groups;
    hide Truthful, HonestAbout, Members, RegisterNetwork, GatherTargetGroups, IPGroups, DeregisterAll;
    DeregisterAllRemoves(w, initial, gathered.log, groups, instance.privateIP.value, g.arn);
  }
}
