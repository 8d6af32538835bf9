/** What one launch does to instances and dedicated hosts, whatever AWS answers
    (pkg/actuators/machine/instances.go, pkg/actuators/machine/dedicatedhosts.go). */
module LaunchEffects {
  import opened Wrappers
  import opened Cloud
  import opened ProviderSpec
  import opened Launch
  import opened Effects

  /** A failure after the host step whose path gives the host back. */
  predicate GivesBack(r: LaunchResult) {
    r.NotLaunched? && r.error != UnexpectedReservation
  }

  /** The last request was RunInstances, and AWS answered it with a reservation. */
  predicate EndsWithReservation(log: Log) {
    log != [] && log[|log| - 1].RunInstances? && log[|log| - 1].run.Reservation?
  }

  /** That reservation does not hold exactly one instance. */
  predicate EndsWithOddReservation(log: Log) {
    EndsWithReservation(log) && |log[|log| - 1].run.instances| != 1
  }

  /** That reservation holds an instance. */
  predicate StartedAny(log: Log) {
    EndsWithReservation(log) && log[|log| - 1].run.instances != []
  }

  /** The last request was a release that AWS did not carry out. */
  predicate EndsWithRefusedRelease(log: Log) {
    log != [] && log[|log| - 1].ReleaseHosts? && !ReleaseSucceeded(log[|log| - 1].released)
  }

  /** What may happen once the host step is over, for the host it gave ("" for none), seen from host h:
      one release attempt on every failure but an unexpected reservation, of that very host and last of all. */
  predicate AfterHostStep(log: Log, o: Out<LaunchResult>, host: string, h: string) {
    var added := Added(log, o.log, h);
    && log <= o.log
    && added.allocations == added.allocateCalls == added.terminateCalls == 0
    && added.releaseCalls == One(host != "" && GivesBack(o.value))
    && added.released == One(h == host != "" && GivesBack(o.value) && EndsWithCompletedRelease(o.log))
    && (host != "" && GivesBack(o.value) ==> ReleaseIsLast(log, o.log, host))
    && (o.value.Launched? ==> o.value.host == host)
    && added.launches == One(!GivesBack(o.value) && StartedAny(o.log))
  }

  predicate ReleaseIsLast(log: Log, next: Log, host: string) {
    |log| < |next| && next[|next| - 1].ReleaseHosts? && next[|next| - 1].host == host
  }

  predicate EndsWithCompletedRelease(log: Log) {
    log != [] && log[|log| - 1].ReleaseHosts? && ReleaseSucceeded(log[|log| - 1].released)
  }

  lemma AbandonEffects(w: World, log: Log, host: string, error: LaunchError, h: string)
    requires error != UnexpectedReservation
    ensures AfterHostStep(log, Abandon(w, log, host, error), host, h)
  {
    hide Allocations, Released, AllocateCalls, ReleaseCalls, Launches, TerminateCalls;
    if host != "" {
      AddedByEvent(log, ReleaseHosts(host, w.releaseHosts(log, host)), h);
    }
  }

  lemma RunEffects(w: World, log: Log, host: string, request: RunRequest, h: string)
    ensures AfterHostStep(log, RunInstance(w, log, host, request), host, h)
  {
    hide Allocations, Released, AllocateCalls, ReleaseCalls, Launches, TerminateCalls;
    var reply := w.runInstances(log, request);
    var next := log + [RunInstances(request, reply)];
    AddedByEvent(log, RunInstances(request, reply), h);
    if reply.RunError? {
      AbandonEffects(w, next, host, RunFailed(reply.clientError), h);
    }
  }

  lemma LaunchOnEffects(w: World, log: Log, clusterID: string, spec: Spec, host: string, h: string)
    ensures AfterHostStep(log, LaunchOn(w, log, clusterID, spec, host), host, h)
  {
    hide Allocations, Released, AllocateCalls, ReleaseCalls, Launches, TerminateCalls;
    var tagged := TagOwnHost(w, log, clusterID, spec);
    assert Quiet(log, tagged);
    QuietAddsNothing(log, tagged, h);
    match Placement(spec, host)
    case Err(e) => AbandonEffects(w, log, host, BadPlacement(e), h);
    case Ok(placement) =>
      match CapacityReservation(spec.reservationID)
      case Err(_) => AbandonEffects(w, tagged, host, BadReservationID, h);
      case Ok(reservation) =>
        match MarketOptions(spec.market, spec.reservationID)
        case Err(e) => AbandonEffects(w, tagged, host, BadMarket(e), h);
        case Ok(market) => RunEffects(w, tagged, host, RunRequest(placement, market, reservation), h);
  }

  /** The host a launch allocates, if it gets that far and AWS names one. */
  function HostAllocatedBy(w: World, log: Log, spec: Spec): Option<string> {
    var prepared := w.prepareLaunch(log);
    if !prepared || !ShouldAllocateHost(spec) then None
    else
      var zone := AllocationZone(w, log + [PrepareLaunch(prepared)], spec);
      if zone.value.Err? then None else AllocatedID(w.allocateHosts(zone.log, zone.value.value))
  }

  /** The log when the host step is over. */
  function AfterAllocation(w: World, log: Log, spec: Spec): Log {
    var prepared := w.prepareLaunch(log);
    var next := log + [PrepareLaunch(prepared)];
    if !prepared || !ShouldAllocateHost(spec) then next
    else
      var zone := AllocationZone(w, next, spec);
      if zone.value.Err? then zone.log
      else zone.log + [AllocateHosts(zone.value.value, w.allocateHosts(zone.log, zone.value.value))]
  }

  lemma AllocationEffects(w: World, log: Log, spec: Spec, h: string)
    ensures var next := AfterAllocation(w, log, spec);
      var added := Added(log, next, h);
      && log <= next
      && added == Counts(One(HostAllocatedBy(w, log, spec) == Some(h)), 0, added.allocateCalls, 0, 0, 0)
      && 0 <= added.allocateCalls <= One(ShouldAllocateHost(spec))
      && (HostAllocatedBy(w, log, spec).Some? ==> added.allocateCalls == 1)
  {
    hide Allocations, Released, AllocateCalls, ReleaseCalls, Launches, TerminateCalls;
    var prepared := w.prepareLaunch(log);
    var next := log + [PrepareLaunch(prepared)];
    QuietAddsNothing(log, next, h);
    if prepared && ShouldAllocateHost(spec) {
      var zone := AllocationZone(w, next, spec);
      assert Quiet(next, zone.log);
      QuietAddsNothing(next, zone.log, h);
      if zone.value.Ok? {
        AddedByEvent(zone.log, AllocateHosts(zone.value.value, w.allocateHosts(zone.log, zone.value.value)), h);
      }
    }
  }

  /** A launch that gets past the host step runs on the host it allocated, "" if it needed none. */
  lemma LaunchSplits(w: World, log: Log, clusterID: string, spec: Spec)
    ensures var o := LaunchInstance(w, log, clusterID, spec);
      var next := AfterAllocation(w, log, spec);
      || ((!w.prepareLaunch(log) || ShouldAllocateHost(spec)) && HostAllocatedBy(w, log, spec).None?
        && o.log == next && o.value.NotLaunched? && GivesBack(o.value))
      || (w.prepareLaunch(log) && ShouldAllocateHost(spec) && HostAllocatedBy(w, log, spec).Some?
        && o == LaunchOn(w, next, clusterID, spec, HostAllocatedBy(w, log, spec).value))
      || (w.prepareLaunch(log) && !ShouldAllocateHost(spec) && HostAllocatedBy(w, log, spec).None?
        && o == LaunchOn(w, next, clusterID, spec, ""))
  {
  }

  /** The host ledger of one launch, for every host h: allocated here means returned to the caller, released, or lost
      because the launch ended with an odd reservation or with a release that AWS did not carry out. */
  lemma LaunchLedger(w: World, log: Log, clusterID: string, spec: Spec, h: string)
    requires h != ""
    ensures var o := LaunchInstance(w, log, clusterID, spec);
      var added := Added(log, o.log, h);
      && log <= o.log && added.terminateCalls == 0
      && added.launches == One(StartedAny(o.log))
      && added.allocations == One(HostAllocatedBy(w, log, spec) == Some(h))
      && added.allocations == added.released + One(o.value.Launched? && o.value.host == h)
           + One(HostAllocatedBy(w, log, spec) == Some(h) && EndsWithOddReservation(o.log))
           + One(HostAllocatedBy(w, log, spec) == Some(h) && EndsWithRefusedRelease(o.log))
      && (o.value.Launched? ==> added.released == 0 && StartedAny(o.log))
  {
    hide Allocations, Released, AllocateCalls, ReleaseCalls, Launches, TerminateCalls;
    var next := AfterAllocation(w, log, spec);
    AllocationEffects(w, log, spec, h);
    LaunchSplits(w, log, clusterID, spec);
    var host := HostAllocatedBy(w, log, spec).GetOr("");
    LaunchOnEffects(w, next, clusterID, spec, host, h);
    LaunchEnds(w, log, clusterID, spec);
  }

  /** Without dynamic allocation a launch neither allocates nor releases a host. */
  lemma OtherPlacementLeavesHostsAlone(w: World, log: Log, clusterID: string, spec: Spec)
    requires !ShouldAllocateHost(spec)
    ensures var o := LaunchInstance(w, log, clusterID, spec);
      && AllocateCalls(o.log) == AllocateCalls(log) && ReleaseCalls(o.log) == ReleaseCalls(log)
      && (o.value.Launched? ==> o.value.host == "")
  {
    hide Allocations, Released, AllocateCalls, ReleaseCalls, Launches, TerminateCalls;
    AllocationEffects(w, log, spec, "");
    LaunchSplits(w, log, clusterID, spec);
    LaunchOnEffects(w, AfterAllocation(w, log, spec), clusterID, spec, "", "");
  }

  /** With dynamic allocation, success means one allocation and no release, and the returned host is the one
      the RunInstances request, the last request of all, asked for. */
  lemma DynamicLaunchSucceeds(w: World, log: Log, clusterID: string, spec: Spec)
    requires ShouldAllocateHost(spec) && LaunchInstance(w, log, clusterID, spec).value.Launched?
    ensures var o := LaunchInstance(w, log, clusterID, spec);
      && AllocateCalls(o.log) == AllocateCalls(log) + 1 && ReleaseCalls(o.log) == ReleaseCalls(log)
      && Some(o.value.host) == HostAllocatedBy(w, log, spec)
      && o.log[|o.log| - 1].RunInstances?
      && (o.value.host != "" ==>
            && o.log[|o.log| - 1].request.placement.Some?
            && o.log[|o.log| - 1].request.placement.value.hostID == Some(o.value.host))
  {
    hide Allocations, Released, AllocateCalls, ReleaseCalls, Launches, TerminateCalls;
    var host := HostAllocatedBy(w, log, spec).GetOr("");
    AllocationEffects(w, log, spec, host);
    LaunchSplits(w, log, clusterID, spec);
    LaunchOnEffects(w, AfterAllocation(w, log, spec), clusterID, spec, host, host);
    if host != "" {
      AllocatedHostIsRequested(spec, host);
    }
  }

  /** A launch ends with a reservation exactly when it succeeds or finds the reservation odd. */
  lemma LaunchEnds(w: World, log: Log, clusterID: string, spec: Spec)
    ensures var o := LaunchInstance(w, log, clusterID, spec);
      && (o.value == NotLaunched(UnexpectedReservation) <==> EndsWithOddReservation(o.log))
      && (GivesBack(o.value) <==> !EndsWithReservation(o.log))
      && (o.value.Launched? ==> o.log[|o.log| - 1].run.instances == [o.value.instance])
  {
    hide LaunchOn;
    LaunchSplits(w, log, clusterID, spec);
    LaunchOnEnds(w, AfterAllocation(w, log, spec), clusterID, spec, HostAllocatedBy(w, log, spec).GetOr(""));
  }

  lemma LaunchOnEnds(w: World, log: Log, clusterID: string, spec: Spec, host: string)
    requires !EndsWithReservation(log)
    ensures var o := LaunchOn(w, log, clusterID, spec, host);
      && (o.value == NotLaunched(UnexpectedReservation) <==> EndsWithOddReservation(o.log))
      && (GivesBack(o.value) <==> !EndsWithReservation(o.log))
      && (o.value.Launched? ==> o.log[|o.log| - 1].run.instances == [o.value.instance])
  {
    hide Placement, CapacityReservation, MarketOptions;
  }

  /** After an allocation, a launch makes no release attempt exactly when AWS answered RunInstances with a
      reservation, and else exactly one, for that host and as the last request. So it fails and keeps the host
      exactly when the reservation does not hold one instance. */
  lemma FailedLaunchReleasesExactlyWhen(w: World, log: Log, clusterID: string, spec: Spec, host: string)
    requires host != "" && HostAllocatedBy(w, log, spec) == Some(host)
    ensures var o := LaunchInstance(w, log, clusterID, spec);
      && AllocateCalls(o.log) == AllocateCalls(log) + 1
      && (EndsWithReservation(o.log) <==> ReleaseCalls(o.log) == ReleaseCalls(log))
      && (!EndsWithReservation(o.log) <==>
            ReleaseCalls(o.log) == ReleaseCalls(log) + 1 && ReleaseIsLast(log, o.log, host))
      && (EndsWithOddReservation(o.log) <==> o.value.NotLaunched? && ReleaseCalls(o.log) == ReleaseCalls(log))
  {
    hide Allocations, Released, AllocateCalls, ReleaseCalls, Launches, TerminateCalls;
    AllocationEffects(w, log, spec, host);
    LaunchSplits(w, log, clusterID, spec);
    LaunchOnEffects(w, AfterAllocation(w, log, spec), clusterID, spec, host, host);
    LaunchEnds(w, log, clusterID, spec);
  }
}
