/** What a launch asks of AWS, request by request, told on the raw spec
    (pkg/actuators/machine/instances.go, pkg/actuators/machine/dedicatedhosts.go). */
module LaunchRequests {
  import opened Wrappers
  import opened Tags
  import opened Cloud
  import opened ProviderSpec
  import opened Launch
  import opened LaunchEffects

  /** The spec asks for a host to be allocated, and names a host of the user. */
  predicate WantsHost(spec: Spec) {
    && spec.host.Some? && spec.host.value.dedicatedHost.Some?
    && spec.host.value.dedicatedHost.value.strategy == Some(Dynamic)
  }

  predicate BringsHost(spec: Spec) {
    && spec.host.Some? && spec.host.value.dedicatedHost.Some?
    && spec.host.value.dedicatedHost.value.id != ""
    && spec.host.value.dedicatedHost.value.strategy in {None, Some(UserProvided)}
  }

  /** A RunInstances request carries the placement, the market and the reservation of the spec, on the given host. */
  predicate RightRequest(request: RunRequest, spec: Spec, host: string) {
    && Places(request.placement, spec, host)
    && AsksMarket(request.market, spec.market)
    && request.reservationID == if spec.reservationID == "" then None else Some(spec.reservationID)
  }

  /** The spec can be launched on the given host. */
  predicate Launchable(spec: Spec, host: string) {
    && !RefusedPlacement(spec, host)
    && (spec.reservationID == "" || ValidReservationID(spec.reservationID))
    && AcceptedMarket(spec.market, spec.reservationID)
  }

  /** The tag that marks the user's host as shared with the cluster. */
  predicate TagsSharedHost(e: Event, spec: Spec, clusterID: string) {
    && e.CreateTags? && BringsHost(spec) && e.resource == spec.host.value.dedicatedHost.value.id
    && e.added == multiset{Tag("kubernetes.io/cluster/" + clusterID, "shared")}
  }

  /** The requests of a launch once its host is settled: first the tag of the user's host, if there is one, then one
      RunInstances exactly when the spec can be launched, and of the right kind. */
  predicate RightRequests(log: Log, next: Log, clusterID: string, spec: Spec, host: string) {
    && log <= next
    && (forall k :: |log| <= k < |next| ==>
          && (next[k].RunInstances? ==> RightRequest(next[k].request, spec, host))
          && (next[k].CreateTags? ==> TagsSharedHost(next[k], spec, clusterID)))
    && ((exists k :: |log| <= k < |next| && next[k].RunInstances?) <==> Launchable(spec, host))
    && ((exists k :: |log| <= k < |next| && next[k].CreateTags?) <==>
          !RefusedPlacement(spec, host) && BringsHost(spec))
  }

  lemma AbandonAsksNothing(w: World, log: Log, host: string, error: LaunchError)
    ensures var o := Abandon(w, log, host, error);
      log <= o.log && forall k :: |log| <= k < |o.log| ==> o.log[k].ReleaseHosts?
  {
  }

  lemma TagAsks(w: World, log: Log, clusterID: string, spec: Spec)
    ensures var tagged := TagOwnHost(w, log, clusterID, spec);
      && log <= tagged && |tagged| == |log| + (if BringsHost(spec) then 1 else 0)
      && forall k :: |log| <= k < |tagged| ==> TagsSharedHost(tagged[k], spec, clusterID)
  {
  }

  lemma RunAsks(w: World, log: Log, host: string, request: RunRequest)
    ensures var o := RunInstance(w, log, host, request);
      && log <= o.log && |o.log| > |log|
      && o.log[|log|].RunInstances? && o.log[|log|].request == request
      && forall k :: |log| < k < |o.log| ==> o.log[k].ReleaseHosts?
  {
  }

  lemma {:induction false} LaunchOnAsks(w: World, log: Log, clusterID: string, spec: Spec, host: string)
    ensures RightRequests(log, LaunchOn(w, log, clusterID, spec, host).log, clusterID, spec, host)
  {
    PlacementShape(spec, host);
    CapacityReservationShape(spec.reservationID);
    MarketShape(spec.market, spec.reservationID);
    TagAsks(w, log, clusterID, spec);
    var o := LaunchOn(w, log, clusterID, spec, host);
    var tagged := TagOwnHost(w, log, clusterID, spec);
    hide Placement, CapacityReservation, MarketOptions, TagOwnHost, Places, AsksMarket, RefusedPlacement;
    hide AcceptedMarket, ValidReservationID, BringsHost, TagsSharedHost, RunInstance, Abandon;
    match Placement(spec, host)
    case Err(e) =>
      AbandonAsksNothing(w, log, host, BadPlacement(e));
    case Ok(placement) =>
      if BringsHost(spec) {
        assert TagsSharedHost(tagged[|log|], spec, clusterID);
        IsTag(tagged[|log|], spec, clusterID);
      }
      forall k | |log| <= k < |tagged| ensures tagged[k].CreateTags? {
        IsTag(tagged[k], spec, clusterID);
      }
      match CapacityReservation(spec.reservationID)
      case Err(_) =>
        AbandonAsksNothing(w, tagged, host, BadReservationID);
      case Ok(reservation) =>
        match MarketOptions(spec.market, spec.reservationID)
        case Err(e) =>
          AbandonAsksNothing(w, tagged, host, BadMarket(e));
        case Ok(market) =>
          RunAsks(w, tagged, host, RunRequest(placement, market, reservation));
          assert o.log[|tagged|].RunInstances?;
  }

  lemma IsTag(e: Event, spec: Spec, clusterID: string)
    requires TagsSharedHost(e, spec, clusterID)
    ensures e.CreateTags?
  {
  }

  /** Every RunInstances request of a launch carries what the spec asks for, on the host allocated for it; the
      user's own host is marked as shared; a host is allocated only when the spec wants one, in the zone of the spec
      or else in the one that AWS gave for the subnet right before. */
  lemma {:induction false} LaunchAsks(w: World, log: Log, clusterID: string, spec: Spec)
    ensures var o := LaunchInstance(w, log, clusterID, spec);
      var host := HostAllocatedBy(w, log, spec).GetOr("");
      && log <= o.log
      && (forall k :: |log| <= k < |o.log| ==>
            && (o.log[k].RunInstances? ==> RightRequest(o.log[k].request, spec, host))
            && (o.log[k].CreateTags? ==> TagsSharedHost(o.log[k], spec, clusterID))
            && (o.log[k].AllocateHosts? ==> WantsHost(spec) && InRightZone(o.log, k, spec)))
      && ((exists k :: |log| <= k < |o.log| && o.log[k].RunInstances?) <==>
            && w.prepareLaunch(log)
            && (WantsHost(spec) ==> HostAllocatedBy(w, log, spec).Some?)
            && Launchable(spec, host))
  {
    var o := LaunchInstance(w, log, clusterID, spec);
    var next := AfterAllocation(w, log, spec);
    var host := HostAllocatedBy(w, log, spec).GetOr("");
    LaunchSplits(w, log, clusterID, spec);
    AllocationAsks(w, log, spec);
    LaunchOnAsks(w, next, clusterID, spec, host);
    hide LaunchOn, LaunchInstance, AfterAllocation, HostAllocatedBy, RightRequest, TagsSharedHost, Launchable;
    hide InRightZone;
    AllocatesAfter(w, next, clusterID, spec, host);
    forall k | |log| <= k < |o.log|
      ensures o.log[k].RunInstances? ==> RightRequest(o.log[k].request, spec, host)
      ensures o.log[k].CreateTags? ==> TagsSharedHost(o.log[k], spec, clusterID)
      ensures o.log[k].AllocateHosts? ==> WantsHost(spec) && InRightZone(o.log, k, spec)
    {
      if k < |next| {
        assert o.log[k] == next[k];
        if o.log[k].AllocateHosts? {
          StillInRightZone(next, o.log, k, spec);
        }
      }
    }
  }

  /** Why a launch fails, in the order of its checks. */
  lemma {:induction false} LaunchFailures(w: World, log: Log, clusterID: string, spec: Spec)
    ensures var value := LaunchInstance(w, log, clusterID, spec).value;
      var given := HostAllocatedBy(w, log, spec);
      if !w.prepareLaunch(log) then value == NotLaunched(PreparationFailed)
      else if WantsHost(spec) && given.None? then
        value.NotLaunched? && value.error in {ZoneLookupFailed, ZoneRequired, HostNotAllocated}
      else if RefusedPlacement(spec, given.GetOr("")) then
        value.NotLaunched? && value.error.BadPlacement? && PlacementFault(value.error.placementError, spec)
      else if spec.reservationID != "" && !ValidReservationID(spec.reservationID) then
        value == NotLaunched(BadReservationID)
      else if !AcceptedMarket(spec.market, spec.reservationID) then
        value.NotLaunched? && value.error.BadMarket?
        && MarketFault(value.error.marketError, spec.market, spec.reservationID)
      else value.Launched? || value.error == UnexpectedReservation || value.error.RunFailed?
  {
    LaunchSplits(w, log, clusterID, spec);
    AllocationAsks(w, log, spec);
    var next := AfterAllocation(w, log, spec);
    LaunchOnFailures(w, next, clusterID, spec, HostAllocatedBy(w, log, spec).GetOr(""));
    hide LaunchOn, RefusedPlacement, AcceptedMarket, ValidReservationID, PlacementFault, MarketFault;
  }

  lemma LaunchOnFailures(w: World, log: Log, clusterID: string, spec: Spec, host: string)
    ensures var value := LaunchOn(w, log, clusterID, spec, host).value;
      if RefusedPlacement(spec, host) then
        value.NotLaunched? && value.error.BadPlacement? && PlacementFault(value.error.placementError, spec)
      else if spec.reservationID != "" && !ValidReservationID(spec.reservationID) then
        value == NotLaunched(BadReservationID)
      else if !AcceptedMarket(spec.market, spec.reservationID) then
        value.NotLaunched? && value.error.BadMarket?
        && MarketFault(value.error.marketError, spec.market, spec.reservationID)
      else value.Launched? || value.error == UnexpectedReservation || value.error.RunFailed?
  {
    PlacementShape(spec, host);
    CapacityReservationShape(spec.reservationID);
    MarketShape(spec.market, spec.reservationID);
    hide Placement, CapacityReservation, MarketOptions, Places, AsksMarket, RefusedPlacement, AcceptedMarket;
    hide ValidReservationID, PlacementFault, MarketFault;
  }

  /** The zone asked for is that of the spec, else the one given in the reply right before. */
  predicate InRightZone(log: Log, k: nat, spec: Spec) {
    && k < |log| && log[k].AllocateHosts?
    && (spec.zone != "" ==> log[k].hostZone == spec.zone)
    && (spec.zone == "" ==>
          k > 0 && log[k - 1].SubnetZone? && log[k - 1].zone == Ok(log[k].hostZone) && log[k].hostZone != "")
  }

  lemma StillInRightZone(log: Log, next: Log, k: nat, spec: Spec)
    requires log <= next && InRightZone(log, k, spec)
    ensures InRightZone(next, k, spec)
  {
    assert next[k] == log[k] && (k > 0 ==> next[k - 1] == log[k - 1]);
  }

  lemma AllocationAsks(w: World, log: Log, spec: Spec)
    ensures var next := AfterAllocation(w, log, spec);
      && log <= next
      && (ShouldAllocateHost(spec) <==> WantsHost(spec))
      && (HostAllocatedBy(w, log, spec).Some? ==> w.prepareLaunch(log) && WantsHost(spec))
      && forall k :: |log| <= k < |next| ==>
           && !next[k].RunInstances? && !next[k].CreateTags?
           && (next[k].AllocateHosts? ==> WantsHost(spec) && InRightZone(next, k, spec))
  {
  }

  lemma AllocatesAfter(w: World, log: Log, clusterID: string, spec: Spec, host: string)
    ensures var o := LaunchOn(w, log, clusterID, spec, host);
      log <= o.log && forall k :: |log| <= k < |o.log| ==> !o.log[k].AllocateHosts?
  {
    hide Placement, CapacityReservation, MarketOptions;
  }
}
