/** The four reconcile operations as the provider performs them, on the record it holds in memory
    (pkg/actuators/machine/reconciler.go, pkg/actuators/machine/machine_scope.go). */
module Reconciler {
  import opened Wrappers
  import opened Tags
  import opened TagCorrection
  import opened Cloud
  import opened Conditions
  import opened InstanceOrder
  import opened ProviderSpec
  import opened Launch
  import opened LoadBalancers
  import opened Lookup
  import opened Steps

  /** One reconcile step on a machine: the record in memory, changed in place. */
  class Reconciler {
    const client: Client
    const config: ProviderConfig
    const input: Input
    var providerID: Option<string>
    var stateAnnotation: Option<InstanceState>
    var instanceID: Option<string>
    var instanceState: Option<InstanceState>
    var host: Option<string>
    var conditions: seq<Condition>
    var addresses: seq<string>

    constructor (client: Client, config: ProviderConfig, input: Input, stored: Record)
      ensures this.client == client && this.config == config && this.input == input && InMemory() == stored
    {
      this.client, this.config, this.input := client, config, input;
      providerID, stateAnnotation := stored.providerID, stored.stateAnnotation;
      instanceID, instanceState, host := stored.instanceID, stored.instanceState, stored.host;
      conditions, addresses := stored.conditions, stored.addresses;
    }

    function InMemory(): Record
      reads this
    {
      Record(providerID, stateAnnotation, instanceID, instanceState, host, conditions, addresses)
    }

    /** The spec was decoded for this step and nothing has completed its market settings yet. */
    predicate Fresh()
      reads config
    {
      config.spec == input.spec && config.CurrentMarket() == input.spec.market
    }

    method GetMachineInstances() returns (r: Option<seq<Instance>>)
      modifies client
      ensures Out(r, client.log) == MachineInstances(client.world, old(client.log), input.machine, instanceID)
    {
      if instanceID.Some? && instanceID.value != "" {
        var i := GetInstanceByID(client, instanceID.value);
        if i.Some? {
          return Some([i.value]);
        }
      }
      r := GetInstances(client, input.machine, EXISTING_STATES);
    }

    method LoadBalancerNames(kind: LoadBalancerType) returns (names: seq<string>)
      ensures names == Names(input.spec.loadBalancers, kind)
    {
      names := [];
      var lbs := input.spec.loadBalancers;
      for i := 0 to |lbs|
        invariant names == Names(lbs[..i], kind)
      {
        assert lbs[..i + 1][..i] == lbs[..i];
        if lbs[i].kind == kind {
          names := names + [lbs[i].name];
        }
      }
      assert lbs[..|lbs|] == lbs;
    }

    method UpdateLoadBalancers(instance: Instance) returns (ok: bool)
      modifies client
      ensures Out(ok, client.log) == Attach(client.world, old(client.log), input.spec.loadBalancers, instance)
    {
      if |input.spec.loadBalancers| == 0 {
        return true;
      }
      var errors := 0;
      var classic := LoadBalancerNames(Classic);
      var network := LoadBalancerNames(Network);
      if |classic| > 0 {
        var accepted := RegisterWithClassicLoadBalancers(client, classic, instance);
        if !accepted {
          errors := errors + 1;
        }
      }
      if |network| > 0 {
        var accepted := RegisterWithNetworkLoadBalancers(client, network, instance);
        if !accepted {
          errors := errors + 1;
        }
      }
      return errors == 0;
    }

    method RemoveFromLoadBalancers(instances: seq<Instance>) returns (ok: bool)
      modifies client
      ensures Out(ok, client.log) == Detach(client.world, old(client.log), input.spec.loadBalancers, instances)
    {
      if |input.spec.loadBalancers| == 0 {
        return true;
      }
      var network := LoadBalancerNames(Network);
      var errors := 0;
      if |network| > 0 {
        ghost var start := client.log;
        for i := 0 to |instances|
          invariant errors >= 0
          invariant DetachAll(client.world, start, network, instances) ==
            (var rest := DetachAll(client.world, client.log, network, instances[i..]);
             Out(errors == 0 && rest.value, rest.log))
        {
          assert instances[i..][0] == instances[i] && instances[i..][1..] == instances[i + 1..];
          var accepted := DeregisterNetworkLoadBalancers(client, network, instances[i]);
          if !accepted {
            errors := errors + 1;
          }
        }
      }
      return errors == 0;
    }

    /** setProviderStatus without an instance. */
    method ClearProviderStatus(condition: Condition)
      modifies this
      ensures InMemory() == WithoutInstance(old(InMemory()), condition, input.now)
    {
      instanceID, instanceState := None, None;
      addresses := [];
      conditions := SetCondition(condition, conditions, input.now);
    }

    /** setProviderStatus with an instance; its error is ignored by every caller. */
    method SetProviderStatus(instance: Instance, condition: Condition)
      modifies this, client
      ensures Out(InMemory(), client.log) == WithInstance(client.world, old(client.log), old(InMemory()), instance,
        condition, input.now)
    {
      instanceID, instanceState := instance.id, instance.state;
      var resolved := client.NodeAddresses(instance);
      if resolved.Err? {
        return;
      }
      addresses := resolved.value;
      conditions := SetCondition(condition, conditions, input.now);
    }

    method RemoveStoppedMachine() returns (ok: bool)
      modifies client
      ensures Out(ok, client.log) == RemoveStopped(client.world, old(client.log), input.machine)
    {
      var stopped := GetInstances(client, input.machine, STOPPED_STATES);
      if stopped.None? {
        return false;
      }
      if |stopped.value| == 0 {
        return true;
      }
      var output := TerminateAll(client, stopped.value);
      return output.Some?;
    }

    /** The checks before a launch; None lets it go ahead. */
    method BeforeLaunch() returns (failure: Option<Failure>)
      modifies client
      ensures Out(failure, client.log) == Preflight(client.world, old(client.log), input, InMemory())
    {
      var instances := GetMachineInstances();
      if instances.Some? && |instances.value| > 0 {
        if IsTerminated(instances.value[0]) {
          return Some(FoundTerminated);
        }
        return Some(FoundExisting);
      }
      if instanceID.Some? && instanceID.value != "" {
        return Some(AlreadyCreated);
      }
      if !ValidMachine(input.machine) {
        return Some(MissingClusterLabel);
      }
      if input.isMaster.Ok? && !input.isMaster.value {
        var removed := RemoveStoppedMachine();
        if !removed {
          return Some(RemoveStoppedFailed);
        }
      }
      if !input.hasUserData {
        return Some(UserDataFailed);
      }
      if input.infra.Err? {
        return Some(InfrastructureFailed);
      }
      return None;
    }

    /** What follows a successful launch. */
    method RecordLaunch(instance: Instance, allocatedHost: string) returns (failure: Option<Failure>)
      modifies this, client
      ensures Out(Done(InMemory(), failure), client.log) ==
        AfterLaunch(client.world, old(client.log), input, old(InMemory()), instance, allocatedHost)
    {
      var attached := UpdateLoadBalancers(instance);
      if !attached {
        return Some(LoadBalancersFailed);
      }
      SetProviderStatus(instance, ConditionSuccess());
      if allocatedHost != "" {
        host := Some(allocatedHost);
      }
      addresses := [];
      return None;
    }

    method Create() returns (failure: Option<Failure>)
      requires Fresh()
      modifies this, client, config
      ensures Out(Done(InMemory(), failure), client.log) ==
        CreateStep(client.world, old(client.log), input, old(InMemory()))
    {
      failure := BeforeLaunch();
      if failure.Some? {
        return;
      }
      var launch := Launch.Launch(client, config, ClusterID(input.machine).GetOr(""));
      if launch.NotLaunched? {
        ClearProviderStatus(ConditionFailed(input.errorText(launch.error)));
        return Some(LaunchFailed(launch.error));
      }
      failure := RecordLaunch(launch.instance, launch.host);
    }

    method Delete() returns (failure: Option<Failure>)
      modifies this, client
      ensures Out(Done(InMemory(), failure), client.log) ==
        DeleteStep(client.world, old(client.log), input, old(InMemory()))
    {
      var instances := GetMachineInstances();
      if instances.None? {
        return Some(LookupFailed);
      }
      if |instances.value| == 0 {
        return None;
      }
      var terminated := IsTerminated(instances.value[0]);
      var states: seq<Option<InstanceState>> := [];
      if !terminated {
        var detached := RemoveFromLoadBalancers(instances.value);
        if !detached {
          return Some(LoadBalancersFailed);
        }
        var output := TerminateAll(client, instances.value);
        if output.None? {
          return Some(TerminateFailed);
        }
        states := output.value;
      }
      if |states| == 1 {
        if states[0].Some? {
          stateAnnotation := states[0];
        }
      } else if terminated {
        var hostID := host.GetOr("");
        if hostID != "" {
          var released := ReleaseDedicatedHost(client, hostID);
          if released {
            host := Some("");
          }
        }
        stateAnnotation := Some(Terminated);
      }
      return None;
    }

    method CorrectExistingTags(infraTags: Option<seq<Tag>>, instance: Instance) returns (ok: bool)
      modifies client
      ensures Out(ok, client.log) == CorrectTags(client.world, old(client.log), input, infraTags, instance)
    {
      var clusterID := ClusterID(input.machine).GetOr("");
      var wanted := BuildTagList(input.machine.name, clusterID, input.spec.tags, infraTags);
      var toAdd := TagsToAdd(input.machine.name, clusterID, wanted, instance.tags);
      assert |toAdd| == |multiset(toAdd)|;
      if |toAdd| != 0 {
        ok := client.CreateTags(instance.id.GetOr(""), toAdd);
        return;
      }
      return true;
    }

    method Update() returns (failure: Option<Failure>)
      modifies this, client
      ensures Out(Done(InMemory(), failure), client.log) ==
        UpdateStep(client.world, old(client.log), input, old(InMemory()))
    {
      if !ValidMachine(input.machine) {
        return Some(MissingClusterLabel);
      }
      var instances := GetMachineInstances();
      if instances.None? {
        return Some(LookupFailed);
      }
      if |instances.value| == 0 {
        if MayAppear(InMemory(), input) {
          return Some(RequeueAfter(REQUEUE_AFTER));
        }
        if instanceID.None? || instanceID.value == "" {
          providerID := Some(ProviderID(input.spec.zone, instanceID));
        }
        ClearProviderStatus(ConditionSuccess());
        return Some(RequeueAfter(REQUEUE_AFTER_FATAL));
      }
      failure := UpdateFrom(instances.value);
    }

    method UpdateFrom(found: seq<Instance>) returns (failure: Option<Failure>)
      requires found != []
      modifies this, client
      ensures Out(Done(InMemory(), failure), client.log) ==
        UpdateFound(client.world, old(client.log), input, old(InMemory()), found)
    {
      hide Attach, CorrectTags, Inserted;
      var order := new Instance[|found|](i requires 0 <= i < |found| => found[i]);
      assert order[..] == found;
      SortInstances(order);
      SortedMeaning(found);
      var running := GetRunningFromInstances(order[..]);
      if input.infra.Err? {
        return Some(InfrastructureFailed);
      }
      var newest := order[0];
      if |running| > 0 {
        newest := running[0];
        var attached := UpdateLoadBalancers(newest);
        if !attached {
          return Some(LoadBalancersFailed);
        }
      }
      providerID := Some(ProviderID(newest.zone, newest.id));
      if newest.state.Some? {
        stateAnnotation := newest.state;
      }
      var corrected := CorrectExistingTags(input.infra.value, newest);
      if !corrected {
        return Some(TagsFailed);
      }
      SetProviderStatus(newest, ConditionSuccess());
      if newest.state == Some(Pending) {
        return Some(RequeueAfter(REQUEUE_AFTER));
      }
      return None;
    }

    method Exists() returns (r: Result<bool, Failure>)
      modifies client
      ensures Out(r, client.log) == ExistsStep(client.world, old(client.log), input, InMemory())
    {
      var instances := GetMachineInstances();
      if instances.None? {
        return Err(LookupFailed);
      }
      if |instances.value| == 0 {
        if MayAppear(InMemory(), input) {
          return Err(RequeueAfter(REQUEUE_AFTER));
        }
        return Ok(false);
      }
      if IsTerminated(instances.value[0]) {
        return Ok(false);
      }
      return Ok(true);
    }
  }
}
