/** The parts of the reconcile operations that change no instance and no host. */
module Quietness {
  import opened Wrappers
  import opened Tags
  import opened Cloud
  import InstanceOrder
  import opened ProviderSpec
  import opened LoadBalancers
  import opened Lookup
  import opened Steps
  import opened Effects

  lemma {:induction false} GatheringIsQuiet(w: World, log: Log, balancers: seq<string>, gathered: seq<TargetGroup>)
    ensures Quiet(log, GatherGroups(w, log, balancers, gathered).log)
    decreases |balancers|
  {
    if balancers != [] {
      var reply := w.describeTargetGroups(log, balancers[0]);
      var next := log + [DescribeTargetGroups(balancers[0], reply)];
      if reply.Ok? {
        GatheringIsQuiet(w, next, balancers[1..], gathered + reply.value);
        QuietTwice(log, next, GatherGroups(w, next, balancers[1..], gathered + reply.value).log);
      }
    }
  }

  lemma GatheringNamedIsQuiet(w: World, log: Log, names: seq<string>)
    ensures Quiet(log, GatherTargetGroups(w, log, names).log)
  {
    var reply := w.describeLoadBalancers(log, names);
    var next := log + [DescribeLoadBalancers(names, reply)];
    if reply.Ok? {
      GatheringIsQuiet(w, next, reply.value, []);
      QuietTwice(log, next, GatherGroups(w, next, reply.value, []).log);
    }
  }

  lemma {:induction false} RegisteringIsQuiet(w: World, log: Log, groups: seq<TargetGroup>, instance: Instance)
    ensures Quiet(log, RegisterAll(w, log, groups, instance).log)
    decreases |groups|
  {
    if groups != [] {
      var first := RegisterOne(w, log, groups[0], instance);
      RegisteringIsQuiet(w, first.log, groups[1..], instance);
      QuietTwice(log, first.log, RegisterAll(w, first.log, groups[1..], instance).log);
    }
  }

  lemma {:induction false} ClassicIsQuiet(w: World, log: Log, names: seq<string>, id: string)
    ensures Quiet(log, RegisterClassicAll(w, log, names, id).log)
    decreases |names|
  {
    if names != [] {
      var next := log + [RegisterClassic(names[0], id, w.registerClassic(log, names[0], id))];
      ClassicIsQuiet(w, next, names[1..], id);
      QuietTwice(log, next, RegisterClassicAll(w, next, names[1..], id).log);
    }
  }

  lemma AttachingIsQuiet(w: World, log: Log, lbs: seq<LoadBalancer>, instance: Instance)
    ensures Quiet(log, Attach(w, log, lbs, instance).log)
  {
    var id := instance.id.GetOr("");
    var classic := RegisterClassicAll(w, log, Names(lbs, Classic), id);
    ClassicIsQuiet(w, log, Names(lbs, Classic), id);
    var names := Names(lbs, Network);
    if names != [] {
      var gathered := GatherTargetGroups(w, classic.log, names);
      GatheringNamedIsQuiet(w, classic.log, names);
      QuietTwice(log, classic.log, gathered.log);
      if gathered.value.Some? {
        var registered := RegisterAll(w, gathered.log, gathered.value.value, instance);
        RegisteringIsQuiet(w, gathered.log, gathered.value.value, instance);
        QuietTwice(log, gathered.log, registered.log);
      }
    }
  }

  lemma {:induction false} DeregisteringIsQuiet(w: World, log: Log, groups: seq<TargetGroup>, ip: string)
    ensures Quiet(log, DeregisterAll(w, log, groups, ip).log)
    decreases |groups|
  {
    if groups != [] {
      var next := log + [DeregisterTargets(groups[0].arn, ip, w.deregisterTargets(log, groups[0].arn, ip))];
      DeregisteringIsQuiet(w, next, groups[1..], ip);
      QuietTwice(log, next, DeregisterAll(w, next, groups[1..], ip).log);
    }
  }

  lemma DeregisteringOneIsQuiet(w: World, log: Log, names: seq<string>, instance: Instance)
    ensures Quiet(log, DeregisterNetwork(w, log, names, instance).log)
  {
    if instance.privateIP.Some? {
      var gathered := GatherTargetGroups(w, log, names);
      GatheringNamedIsQuiet(w, log, names);
      if gathered.value.Some? {
        var groups := IPGroups(gathered.value.value);
        DeregisteringIsQuiet(w, gathered.log, groups, instance.privateIP.value);
        QuietTwice(log, gathered.log, DeregisterAll(w, gathered.log, groups, instance.privateIP.value).log);
      }
    }
  }

  lemma {:induction false} DetachingIsQuiet(w: World, log: Log, names: seq<string>, instances: seq<Instance>)
    ensures Quiet(log, DetachAll(w, log, names, instances).log)
    decreases |instances|
  {
    if instances != [] {
      var first := DeregisterNetwork(w, log, names, instances[0]);
      DeregisteringOneIsQuiet(w, log, names, instances[0]);
      DetachingIsQuiet(w, first.log, names, instances[1..]);
      QuietTwice(log, first.log, DetachAll(w, first.log, names, instances[1..]).log);
    }
  }

  lemma DetachingNamedIsQuiet(w: World, log: Log, lbs: seq<LoadBalancer>, instances: seq<Instance>)
    ensures Quiet(log, Detach(w, log, lbs, instances).log)
  {
    DetachingIsQuiet(w, log, Names(lbs, Network), instances);
  }

  lemma LookingUpIsQuiet(w: World, log: Log, m: Machine, instanceID: Option<string>)
    ensures Quiet(log, MachineInstances(w, log, m, instanceID).log)
  {
    if HasID(instanceID) {
      QuietTwice(log, LookupByID(w, log, instanceID.value).log, MachineInstances(w, log, m, instanceID).log);
    }
  }

  lemma CheckingIsQuiet(w: World, log: Log, input: Input, rec: Record)
    ensures Quiet(log, ExistsStep(w, log, input, rec).log)
  {
    LookingUpIsQuiet(w, log, input.machine, rec.instanceID);
  }

  lemma RecordingIsQuiet(w: World, log: Log, input: Input, rec: Record, instance: Instance, host: string)
    ensures Quiet(log, AfterLaunch(w, log, input, rec, instance, host).log)
  {
    var attached := Attach(w, log, input.spec.loadBalancers, instance);
    AttachingIsQuiet(w, log, input.spec.loadBalancers, instance);
    QuietTwice(log, attached.log, AfterLaunch(w, log, input, rec, instance, host).log);
  }

  lemma AdoptingIsQuiet(w: World, log: Log, input: Input, rec: Record, infraTags: Option<seq<Tag>>, newest: Instance)
    ensures Quiet(log, Adopt(w, log, input, rec, infraTags, newest).log)
  {
    var corrected := CorrectTags(w, log, input, infraTags, newest);
    assert Quiet(log, corrected.log);
    QuietTwice(log, corrected.log, Adopt(w, log, input, rec, infraTags, newest).log);
  }

  /** update never launches or terminates an instance and never allocates or releases a host. */
  lemma UpdatingIsQuiet(w: World, log: Log, input: Input, rec: Record)
    ensures Quiet(log, UpdateStep(w, log, input, rec).log)
  {
    var found := MachineInstances(w, log, input.machine, rec.instanceID);
    LookingUpIsQuiet(w, log, input.machine, rec.instanceID);
    if ValidMachine(input.machine) && found.value.Some? && found.value.value != [] {
      UpdatingFoundIsQuiet(w, found.log, input, rec, found.value.value);
      QuietTwice(log, found.log, UpdateFound(w, found.log, input, rec, found.value.value).log);
    }
  }

  lemma UpdatingFoundIsQuiet(w: World, log: Log, input: Input, rec: Record, found: seq<Instance>)
    requires found != []
    ensures Quiet(log, UpdateFound(w, log, input, rec, found).log)
  {
    InstanceOrder.SortedMeaning(found);
    var sorted := InstanceOrder.Sorted(found);
    if input.infra.Ok? {
      if InstanceOrder.Running(sorted) == [] {
        AdoptingIsQuiet(w, log, input, rec, input.infra.value, sorted[0]);
      } else {
        var newest := InstanceOrder.Running(sorted)[0];
        var attached := Attach(w, log, input.spec.loadBalancers, newest);
        AttachingIsQuiet(w, log, input.spec.loadBalancers, newest);
        AdoptingIsQuiet(w, attached.log, input, rec, input.infra.value, newest);
        QuietTwice(log, attached.log, Adopt(w, attached.log, input, rec, input.infra.value, newest).log);
      }
    }
  }
}
