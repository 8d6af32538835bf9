/** Launching an instance, with the dedicated host it may allocate
    (pkg/actuators/machine/instances.go, pkg/actuators/machine/dedicatedhosts.go). */
module Launch {
  import opened Wrappers
  import opened Tags
  import opened Cloud
  import opened ProviderSpec

  datatype LaunchError =
    | PreparationFailed
    | ZoneLookupFailed
    | ZoneRequired
    | HostNotAllocated
    | BadPlacement(placementError: PlacementError)
    | BadReservationID
    | BadMarket(marketError: MarketError)
    | RunFailed(clientError: bool)
    | UnexpectedReservation

  /** A launch gives the instance and the ID of the host allocated for it, "" for none. */
  datatype LaunchResult = Launched(instance: Instance, host: string) | NotLaunched(error: LaunchError)

  // ---- Single host calls ----

  /** The host ID the provider reads from an AllocateHosts answer: the first one. */
  function AllocatedID(reply: Result<seq<string>, ApiError>): Option<string> {
    if reply.Ok? && reply.value != [] then Some(reply.value[0]) else None
  }

  predicate ReleaseSucceeded(reply: ReleaseReply) {
    reply == Release(0)
  }

  method AllocateDedicatedHost(client: Client, zone: string) returns (host: Option<string>)
    modifies client
    ensures var reply := client.world.allocateHosts(old(client.log), zone);
      && host == AllocatedID(reply) && client.log == old(client.log) + [AllocateHosts(zone, reply)]
      && (if reply.Ok? && |reply.value| > 0 then host == Some(reply.value[0]) else host == None)
  {
    var output := client.AllocateHosts(zone);
    if output.Err? {
      return None;
    }
    if |output.value| == 0 {
      return None;
    }
    return Some(output.value[0]);
  }

  method ReleaseDedicatedHost(client: Client, host: string) returns (ok: bool)
    modifies client
    ensures var reply := client.world.releaseHosts(old(client.log), host);
      && ok == ReleaseSucceeded(reply) && client.log == old(client.log) + [ReleaseHosts(host, reply)]
      && (ok <==> reply.Release? && reply.unsuccessful == 0)
  {
    var output := client.ReleaseHosts(host);
    if output.ReleaseError? {
      return false;
    }
    if output.unsuccessful > 0 {
      return false;
    }
    return true;
  }

  // ---- The launch as a function of the history ----

  /** Giving up after the host step: one attempt to release the host, if there is one. */
  function Abandon(w: World, log: Log, host: string, error: LaunchError): Out<LaunchResult> {
    Out(NotLaunched(error), if host == "" then log else log + [ReleaseHosts(host, w.releaseHosts(log, host))])
  }

  function SharedTag(clusterID: string): Tag {
    Tag(CLUSTER_PREFIX + clusterID, "shared")
  }

  function TagOwnHost(w: World, log: Log, clusterID: string, spec: Spec): Log {
    if !BringsOwnHost(spec) then log
    else
      var tags := multiset{SharedTag(clusterID)};
      log + [CreateTags(UserHostID(spec), tags, w.createTags(log, UserHostID(spec), tags))]
  }

  function RunInstance(w: World, log: Log, host: string, request: RunRequest): Out<LaunchResult> {
    var reply := w.runInstances(log, request);
    var next := log + [RunInstances(request, reply)];
    match reply
    case RunError(clientError) => Abandon(w, next, host, RunFailed(clientError))
    case Reservation(instances) =>
      if |instances| != 1 then Out(NotLaunched(UnexpectedReservation), next)
        else Out(Launched(instances[0], host), next)
  }

  function LaunchOn(w: World, log: Log, clusterID: string, spec: Spec, host: string): Out<LaunchResult> {
    match Placement(spec, host)
    case Err(e) => Abandon(w, log, host, BadPlacement(e))
    case Ok(placement) =>
      var tagged := TagOwnHost(w, log, clusterID, spec);
      match CapacityReservation(spec.reservationID)
      case Err(_) => Abandon(w, tagged, host, BadReservationID)
      case Ok(reservation) =>
        match MarketOptions(spec.market, spec.reservationID)
        case Err(e) => Abandon(w, tagged, host, BadMarket(e))
        case Ok(market) => RunInstance(w, tagged, host, RunRequest(placement, market, reservation))
  }

  function AllocationZone(w: World, log: Log, spec: Spec): Out<Result<string, LaunchError>> {
    if spec.zone != "" then Out(Ok(spec.zone), log)
    else
      var reply := w.subnetZone(log);
      Out(if reply.Err? then Err(ZoneLookupFailed)
          else if reply.value == "" then Err(ZoneRequired) else Ok(reply.value),
          log + [SubnetZone(reply)])
  }

  function AllocateAndLaunch(w: World, log: Log, clusterID: string, spec: Spec): Out<LaunchResult> {
    var zone := AllocationZone(w, log, spec);
    match zone.value
    case Err(e) => Out(NotLaunched(e), zone.log)
    case Ok(name) =>
      var reply := w.allocateHosts(zone.log, name);
      var next := zone.log + [AllocateHosts(name, reply)];
      match AllocatedID(reply)
      case None => Out(NotLaunched(HostNotAllocated), next)
      case Some(host) => LaunchOn(w, next, clusterID, spec, host)
  }

  function LaunchInstance(w: World, log: Log, clusterID: string, spec: Spec): Out<LaunchResult> {
    var prepared := w.prepareLaunch(log);
    var next := log + [PrepareLaunch(prepared)];
    if !prepared then Out(NotLaunched(PreparationFailed), next)
    else if ShouldAllocateHost(spec) then AllocateAndLaunch(w, next, clusterID, spec)
    else LaunchOn(w, next, clusterID, spec, "")
  }

  // ---- The launch as the provider performs it ----

  method ReleaseAllocated(client: Client, host: string)
    modifies client
    ensures client.log == Abandon(client.world, old(client.log), host, PreparationFailed).log
  {
    if host != "" {
      var ok := ReleaseDedicatedHost(client, host);
    }
  }

  method Launch(client: Client, config: ProviderConfig, clusterID: string) returns (r: LaunchResult)
    requires config.CurrentMarket() == config.spec.market
    modifies client, config
    ensures Out(r, client.log) == LaunchInstance(client.world, old(client.log), clusterID, config.spec)
    ensures r.Launched? ==> config.CurrentMarket() == SettledMarket(config.spec.market, config.spec.reservationID)
  {
    hide Placement, MarketOptions, SettledMarket, CapacityReservation;
    var spec := config.spec;
    var prepared := client.PrepareLaunch();
    if !prepared {
      return NotLaunched(PreparationFailed);
    }
    var host := "";
    if ShouldAllocateHost(spec) {
      var zone := spec.zone;
      if zone == "" {
        var reply := client.SubnetZone();
        if reply.Err? {
          return NotLaunched(ZoneLookupFailed);
        }
        zone := reply.value;
      }
      if zone == "" {
        return NotLaunched(ZoneRequired);
      }
      var hostID := AllocateDedicatedHost(client, zone);
      if hostID.None? {
        return NotLaunched(HostNotAllocated);
      }
      host := hostID.value;
    }
    var placement := ConstructInstancePlacement(spec, host);
    if placement.Err? {
      ReleaseAllocated(client, host);
      return NotLaunched(BadPlacement(placement.error));
    }
    if BringsOwnHost(spec) {
      var tagged := client.CreateTags(UserHostID(spec), [SharedTag(clusterID)]);
    }
    var reservation := CapacityReservation(spec.reservationID);
    if reservation.Err? {
      ReleaseAllocated(client, host);
      return NotLaunched(BadReservationID);
    }
    var market := config.GetInstanceMarketOptionsRequest();
    if market.Err? {
      ReleaseAllocated(client, host);
      return NotLaunched(BadMarket(market.error));
    }
    var run := client.RunInstances(RunRequest(placement.value, market.value, reservation.value));
    if run.RunError? {
      ReleaseAllocated(client, host);
      return NotLaunched(RunFailed(run.clientError));
    }
    if |run.instances| != 1 {
      return NotLaunched(UnexpectedReservation);
    }
    return Launched(run.instances[0], host);
  }
}
