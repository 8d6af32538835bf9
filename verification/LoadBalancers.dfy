/** Attaching instances to load balancers and detaching them (pkg/actuators/machine/loadbalancers.go).
    Results are true for a nil error. */
module LoadBalancers {
  import opened Wrappers
  import opened Cloud

  // ---- Gathering target groups ----

  /** The groups of the given load balancers, added to those gathered so far. */
  function GatherGroups(w: World, log: Log, balancers: seq<string>,
                        gathered: seq<TargetGroup>): Out<Option<seq<TargetGroup>>>
    decreases |balancers|
  {
    if balancers == [] then Out(Some(gathered), log)
    else
      var reply := w.describeTargetGroups(log, balancers[0]);
      var next := log + [DescribeTargetGroups(balancers[0], reply)];
      if reply.Err? then Out(None, next)
      else GatherGroups(w, next, balancers[1..], gathered + reply.value)
  }

  function GatherTargetGroups(w: World, log: Log, names: seq<string>): Out<Option<seq<TargetGroup>>> {
    var reply := w.describeLoadBalancers(log, names);
    var next := log + [DescribeLoadBalancers(names, reply)];
    if reply.Err? then Out(None, next) else GatherGroups(w, next, reply.value, [])
  }

  method GatherLoadBalancerTargetGroups(client: Client, names: seq<string>) returns (r: Option<seq<TargetGroup>>)
    modifies client
    ensures Out(r, client.log) == GatherTargetGroups(client.world, old(client.log), names)
  {
    var response := client.DescribeLoadBalancers(names);
    if response.Err? {
      return None;
    }
    var balancers := response.value;
    ghost var start := client.log;
    var groups: seq<TargetGroup> := [];
    for i := 0 to |balancers|
      invariant GatherGroups(client.world, start, balancers, []) ==
        GatherGroups(client.world, client.log, balancers[i..], groups)
    {
      assert balancers[i..][0] == balancers[i] && balancers[i..][1..] == balancers[i + 1..];
      var output := client.DescribeTargetGroups(balancers[i]);
      if output.Err? {
        return None;
      }
      groups := groups + output.value;
    }
    return Some(groups);
  }

  // ---- Registration ----

  /** The ID under which an instance joins a group: its own, or its private address. */
  function TargetID(group: TargetGroup, instance: Instance): string {
    match group.targetType
    case InstanceTarget => instance.id.GetOr("")
    case IPTarget => instance.privateIP.GetOr("")
  }

  function RegisterOne(w: World, log: Log, group: TargetGroup, instance: Instance): Out<bool> {
    var id := TargetID(group, instance);
    var health := w.describeTargetHealth(log, group.arn);
    var next := log + [DescribeTargetHealth(group.arn, health)];
    if health.Ok? && id in health.value then Out(true, next)
    else
      var ok := w.registerTargets(next, group.arn, id);
      Out(health.Ok? && ok, next + [RegisterTargets(group.arn, id, ok)])
  }

  /** Every group is tried, whatever happened to the ones before it. */
  function RegisterAll(w: World, log: Log, groups: seq<TargetGroup>, instance: Instance): Out<bool>
    decreases |groups|
  {
    if groups == [] then Out(true, log)
    else
      var first := RegisterOne(w, log, groups[0], instance);
      var rest := RegisterAll(w, first.log, groups[1..], instance);
      Out(first.value && rest.value, rest.log)
  }

  function RegisterNetwork(w: World, log: Log, names: seq<string>, instance: Instance): Out<bool> {
    var gathered := GatherTargetGroups(w, log, names);
    if gathered.value.None? then Out(false, gathered.log)
    else RegisterAll(w, gathered.log, gathered.value.value, instance)
  }

  method GatherRegisteredTargets(client: Client, group: string) returns (r: Option<set<string>>)
    modifies client
    ensures var health := client.world.describeTargetHealth(old(client.log), group);
      && client.log == old(client.log) + [DescribeTargetHealth(group, health)]
      && r == if health.Err? then None else Some(set id | id in health.value)
  {
    var response := client.DescribeTargetHealth(group);
    if response.Err? {
      return None;
    }
    var ids: set<string> := {};
    for i := 0 to |response.value|
      invariant ids == set id | id in response.value[..i]
    {
      assert response.value[..i + 1] == response.value[..i] + [response.value[i]];
      ids := ids + {response.value[i]};
    }
    assert response.value[..|response.value|] == response.value;
    return Some(ids);
  }

  method RegisterWithNetworkLoadBalancers(client: Client, names: seq<string>, instance: Instance) returns (ok: bool)
    modifies client
    ensures Out(ok, client.log) == RegisterNetwork(client.world, old(client.log), names, instance)
  {
    var gathered := GatherLoadBalancerTargetGroups(client, names);
    if gathered.None? {
      return false;
    }
    var groups := gathered.value;
    ghost var start := client.log;
    var errors := 0;
    for i := 0 to |groups|
      invariant errors >= 0
      invariant RegisterAll(client.world, start, groups, instance) ==
        (var rest := RegisterAll(client.world, client.log, groups[i..], instance);
         Out(errors == 0 && rest.value, rest.log))
    {
      assert groups[i..][0] == groups[i] && groups[i..][1..] == groups[i + 1..];
      var id := "";
      match groups[i].targetType {
        case InstanceTarget => id := instance.id.GetOr("");
        case IPTarget => id := instance.privateIP.GetOr("");
      }
      var registered := GatherRegisteredTargets(client, groups[i].arn);
      if registered.None? {
        errors := errors + 1;
      } else if id in registered.value {
        continue;
      }
      var accepted := client.RegisterTargets(groups[i].arn, id);
      if !accepted {
        errors := errors + 1;
      }
    }
    return errors == 0;
  }

  function RegisterClassicAll(w: World, log: Log, names: seq<string>, id: string): Out<bool>
    decreases |names|
  {
    if names == [] then Out(true, log)
    else
      var ok := w.registerClassic(log, names[0], id);
      var rest := RegisterClassicAll(w, log + [RegisterClassic(names[0], id, ok)], names[1..], id);
      Out(ok && rest.value, rest.log)
  }

  method RegisterWithClassicLoadBalancers(client: Client, names: seq<string>, instance: Instance) returns (ok: bool)
    modifies client
    ensures Out(ok, client.log) == RegisterClassicAll(client.world, old(client.log), names, instance.id.GetOr(""))
  {
    var id := instance.id.GetOr("");
    ghost var start := client.log;
    var errors := 0;
    for i := 0 to |names|
      invariant errors >= 0
      invariant RegisterClassicAll(client.world, start, names, id) ==
        (var rest := RegisterClassicAll(client.world, client.log, names[i..], id);
         Out(errors == 0 && rest.value, rest.log))
    {
      assert names[i..][0] == names[i] && names[i..][1..] == names[i + 1..];
      var attached := client.RegisterClassic(names[i], id);
      if !attached {
        errors := errors + 1;
      }
    }
    return errors == 0;
  }

  // ---- Deregistration ----

  /** Answers after which the target is not (or no longer) in the group. */
  predicate Gone(reply: DeregisterReply) {
    reply != DeregisterError
  }

  function IPGroups(groups: seq<TargetGroup>): seq<TargetGroup> {
    if groups == [] then []
    else
      var n := |groups| - 1;
      IPGroups(groups[..n]) + (if groups[n].targetType.IPTarget? then [groups[n]] else [])
  }

  lemma {:induction false} IPGroupsMeaning(groups: seq<TargetGroup>, g: TargetGroup)
    ensures g in IPGroups(groups) <==> g in groups && g.targetType.IPTarget?
  {
    if groups != [] {
      var n := |groups| - 1;
      IPGroupsMeaning(groups[..n], g);
      assert groups == groups[..n] + [groups[n]];
    }
  }

  function DeregisterAll(w: World, log: Log, groups: seq<TargetGroup>, ip: string): Out<bool>
    decreases |groups|
  {
    if groups == [] then Out(true, log)
    else
      var reply := w.deregisterTargets(log, groups[0].arn, ip);
      var rest := DeregisterAll(w, log + [DeregisterTargets(groups[0].arn, ip, reply)], groups[1..], ip);
      Out(Gone(reply) && rest.value, rest.log)
  }

  function DeregisterNetwork(w: World, log: Log, names: seq<string>, instance: Instance): Out<bool> {
    if instance.privateIP.None? then Out(true, log)
    else
      var gathered := GatherTargetGroups(w, log, names);
      if gathered.value.None? then Out(false, gathered.log)
      else DeregisterAll(w, gathered.log, IPGroups(gathered.value.value), instance.privateIP.value)
  }

  method DeregisterNetworkLoadBalancers(client: Client, names: seq<string>, instance: Instance) returns (ok: bool)
    modifies client
    ensures Out(ok, client.log) == DeregisterNetwork(client.world, old(client.log), names, instance)
  {
    if instance.privateIP.None? {
      return true;
    }
    var gathered := GatherLoadBalancerTargetGroups(client, names);
    if gathered.None? {
      return false;
    }
    var groups := gathered.value;
    var byIP: seq<TargetGroup> := [];
    for i := 0 to |groups|
      invariant byIP == IPGroups(groups[..i])
    {
      assert groups[..i + 1][..i] == groups[..i];
      if groups[i].targetType.IPTarget? {
        byIP := byIP + [groups[i]];
      }
    }
    assert groups[..|groups|] == groups;
    ghost var start := client.log;
    var ip := instance.privateIP.value;
    var errors := 0;
    for i := 0 to |byIP|
      invariant errors >= 0
      invariant DeregisterAll(client.world, start, byIP, ip) ==
        (var rest := DeregisterAll(client.world, client.log, byIP[i..], ip); Out(errors == 0 && rest.value, rest.log))
    {
      assert byIP[i..][0] == byIP[i] && byIP[i..][1..] == byIP[i + 1..];
      var reply := client.DeregisterTargets(byIP[i].arn, ip);
      match reply {
        case Deregistered =>
        case InvalidTarget =>
        case GroupNotFound =>
        case DeregisterError => errors := errors + 1;
      }
    }
    return errors == 0;
  }
}
