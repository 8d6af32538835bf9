/** AWS as the provider sees it: every request may be answered in any way that depends on everything that
    happened before, and every request is recorded together with its answer. */
module Cloud {
  import opened Wrappers
  import opened Tags

  /** The state names of EC2; a state without a name is OtherState(""). */
  datatype InstanceState = Running | Pending | Stopped | Stopping | ShuttingDown | Terminated | OtherState(name: string)

  /** An EC2 instance as a lookup or a launch reports it; nil pointers are None. */
  datatype Instance = Instance(
    id: Option<string>,
    state: Option<InstanceState>,
    launchTime: Option<int>,
    zone: string,
    privateIP: Option<string>,
    tags: seq<InstanceTag>
  )

  datatype Query = ByID(id: string) | ByTags(machineName: string, clusterID: string)

  datatype TargetType = InstanceTarget | IPTarget
  datatype TargetGroup = TargetGroup(arn: string, targetType: TargetType)

  datatype Tenancy = NoTenancy | DefaultTenancy | DedicatedTenancy | HostTenancy | OtherTenancy(name: string)

  /** How an instance sticks to its host, in the terms of EC2. */
  datatype HostAffinity = DefaultAffinity | HostBound

  datatype PlacementRequest = PlacementRequest(
    zone: Option<string>,
    groupName: Option<string>,
    partition: Option<int>,
    tenancy: Option<Tenancy>,
    affinity: Option<HostAffinity>,
    hostID: Option<string>
  )

  datatype MarketRequest = CapacityBlockMarket | SpotMarket(maxPrice: Option<string>)

  /** The parts of a RunInstances request that depend on the host, the market and the reservation. */
  datatype RunRequest = RunRequest(
    placement: Option<PlacementRequest>,
    market: Option<MarketRequest>,
    reservationID: Option<string>
  )

  datatype ApiError = ApiError

  datatype InstancesReply = Reservations(list: seq<seq<Instance>>) | LookupError
  datatype TerminateReply = Terminating(states: seq<Option<InstanceState>>) | TerminateError
  datatype ReleaseReply = Release(unsuccessful: nat) | ReleaseError
  datatype RunReply = Reservation(instances: seq<Instance>) | RunError(clientError: bool)
  datatype DeregisterReply = Deregistered | InvalidTarget | GroupNotFound | DeregisterError

  datatype Event =
    | DescribeInstances(query: Query, found: InstancesReply)
    | TerminateInstances(ids: seq<string>, terminated: TerminateReply)
    | PrepareLaunch(prepared: bool)
    | SubnetZone(zone: Result<string, ApiError>)
    | AllocateHosts(hostZone: string, hosts: Result<seq<string>, ApiError>)
    | ReleaseHosts(host: string, released: ReleaseReply)
    | RunInstances(request: RunRequest, run: RunReply)
    | CreateTags(resource: string, added: multiset<Tag>, tagged: bool)
    | NodeAddresses(described: Instance, addresses: Result<seq<string>, ApiError>)
    | DescribeLoadBalancers(names: seq<string>, balancers: Result<seq<string>, ApiError>)
    | DescribeTargetGroups(balancer: string, groups: Result<seq<TargetGroup>, ApiError>)
    | DescribeTargetHealth(group: string, targets: Result<seq<string>, ApiError>)
    | RegisterTargets(group: string, target: string, registered: bool)
    | DeregisterTargets(group: string, target: string, deregistered: DeregisterReply)
    | RegisterClassic(name: string, instanceID: string, attached: bool)

  type Log = seq<Event>

  /** One possible behaviour of AWS: an answer to every request after every history. */
  datatype World = World(
    describeInstances: (Log, Query) -> InstancesReply,
    terminateInstances: (Log, seq<string>) -> TerminateReply,
    prepareLaunch: Log -> bool,
    subnetZone: Log -> Result<string, ApiError>,
    allocateHosts: (Log, string) -> Result<seq<string>, ApiError>,
    releaseHosts: (Log, string) -> ReleaseReply,
    runInstances: (Log, RunRequest) -> RunReply,
    createTags: (Log, string, multiset<Tag>) -> bool,
    nodeAddresses: (Log, Instance) -> Result<seq<string>, ApiError>,
    describeLoadBalancers: (Log, seq<string>) -> Result<seq<string>, ApiError>,
    describeTargetGroups: (Log, string) -> Result<seq<TargetGroup>, ApiError>,
    describeTargetHealth: (Log, string) -> Result<seq<string>, ApiError>,
    registerTargets: (Log, string, string) -> bool,
    deregisterTargets: (Log, string, string) -> DeregisterReply,
    registerClassic: (Log, string, string) -> bool
  )

  /** A value computed while talking to AWS, with the log after the last request. */
  datatype Out<+T> = Out(value: T, log: Log)

  /** The client through which all requests go. */
  class Client {
    const world: World
    var log: Log

    constructor (world: World)
      ensures this.world == world && log == []
    {
      this.world := world;
      log := [];
    }

    method DescribeInstances(query: Query) returns (reply: InstancesReply)
      modifies this
      ensures reply == world.describeInstances(old(log), query)
      ensures log == old(log) + [Event.DescribeInstances(query, reply)]
    {
      reply := world.describeInstances(log, query);
      log := log + [Event.DescribeInstances(query, reply)];
    }

    method TerminateInstances(ids: seq<string>) returns (reply: TerminateReply)
      modifies this
      ensures reply == world.terminateInstances(old(log), ids)
      ensures log == old(log) + [Event.TerminateInstances(ids, reply)]
    {
      reply := world.terminateInstances(log, ids);
      log := log + [Event.TerminateInstances(ids, reply)];
    }

    method PrepareLaunch() returns (reply: bool)
      modifies this
      ensures reply == world.prepareLaunch(old(log))
      ensures log == old(log) + [Event.PrepareLaunch(reply)]
    {
      reply := world.prepareLaunch(log);
      log := log + [Event.PrepareLaunch(reply)];
    }

    method SubnetZone() returns (reply: Result<string, ApiError>)
      modifies this
      ensures reply == world.subnetZone(old(log))
      ensures log == old(log) + [Event.SubnetZone(reply)]
    {
      reply := world.subnetZone(log);
      log := log + [Event.SubnetZone(reply)];
    }

    method AllocateHosts(zone: string) returns (reply: Result<seq<string>, ApiError>)
      modifies this
      ensures reply == world.allocateHosts(old(log), zone)
      ensures log == old(log) + [Event.AllocateHosts(zone, reply)]
    {
      reply := world.allocateHosts(log, zone);
      log := log + [Event.AllocateHosts(zone, reply)];
    }

    method ReleaseHosts(host: string) returns (reply: ReleaseReply)
      modifies this
      ensures reply == world.releaseHosts(old(log), host)
      ensures log == old(log) + [Event.ReleaseHosts(host, reply)]
    {
      reply := world.releaseHosts(log, host);
      log := log + [Event.ReleaseHosts(host, reply)];
    }

    method RunInstances(request: RunRequest) returns (reply: RunReply)
      modifies this
      ensures reply == world.runInstances(old(log), request)
      ensures log == old(log) + [Event.RunInstances(request, reply)]
    {
      reply := world.runInstances(log, request);
      log := log + [Event.RunInstances(request, reply)];
    }

    method CreateTags(resource: string, tags: seq<Tag>) returns (reply: bool)
      modifies this
      ensures reply == world.createTags(old(log), resource, multiset(tags))
      ensures log == old(log) + [Event.CreateTags(resource, multiset(tags), reply)]
    {
      reply := world.createTags(log, resource, multiset(tags));
      log := log + [Event.CreateTags(resource, multiset(tags), reply)];
    }

    method NodeAddresses(instance: Instance) returns (reply: Result<seq<string>, ApiError>)
      modifies this
      ensures reply == world.nodeAddresses(old(log), instance)
      ensures log == old(log) + [Event.NodeAddresses(instance, reply)]
    {
      reply := world.nodeAddresses(log, instance);
      log := log + [Event.NodeAddresses(instance, reply)];
    }

    method DescribeLoadBalancers(names: seq<string>) returns (reply: Result<seq<string>, ApiError>)
      modifies this
      ensures reply == world.describeLoadBalancers(old(log), names)
      ensures log == old(log) + [Event.DescribeLoadBalancers(names, reply)]
    {
      reply := world.describeLoadBalancers(log, names);
      log := log + [Event.DescribeLoadBalancers(names, reply)];
    }

    method DescribeTargetGroups(balancer: string) returns (reply: Result<seq<TargetGroup>, ApiError>)
      modifies this
      ensures reply == world.describeTargetGroups(old(log), balancer)
      ensures log == old(log) + [Event.DescribeTargetGroups(balancer, reply)]
    {
      reply := world.describeTargetGroups(log, balancer);
      log := log + [Event.DescribeTargetGroups(balancer, reply)];
    }

    method DescribeTargetHealth(group: string) returns (reply: Result<seq<string>, ApiError>)
      modifies this
      ensures reply == world.describeTargetHealth(old(log), group)
      ensures log == old(log) + [Event.DescribeTargetHealth(group, reply)]
    {
      reply := world.describeTargetHealth(log, group);
      log := log + [Event.DescribeTargetHealth(group, reply)];
    }

    method RegisterTargets(group: string, target: string) returns (reply: bool)
      modifies this
      ensures reply == world.registerTargets(old(log), group, target)
      ensures log == old(log) + [Event.RegisterTargets(group, target, reply)]
    {
      reply := world.registerTargets(log, group, target);
      log := log + [Event.RegisterTargets(group, target, reply)];
    }

    method DeregisterTargets(group: string, target: string) returns (reply: DeregisterReply)
      modifies this
      ensures reply == world.deregisterTargets(old(log), group, target)
      ensures log == old(log) + [Event.DeregisterTargets(group, target, reply)]
    {
      reply := world.deregisterTargets(log, group, target);
      log := log + [Event.DeregisterTargets(group, target, reply)];
    }

    method RegisterClassic(name: string, instanceID: string) returns (reply: bool)
      modifies this
      ensures reply == world.registerClassic(old(log), name, instanceID)
      ensures log == old(log) + [Event.RegisterClassic(name, instanceID, reply)]
    {
      reply := world.registerClassic(log, name, instanceID);
      log := log + [Event.RegisterClassic(name, instanceID, reply)];
    }
  }
}
