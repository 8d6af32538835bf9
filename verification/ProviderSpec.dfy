/** The provider spec of a machine and the request parts computed from it
    (pkg/actuators/machine/instances.go, pkg/actuators/machine/dedicatedhosts.go). */
module ProviderSpec {
  import opened Wrappers
  import opened Tags
  import opened Cloud

  datatype AllocationStrategy = UserProvided | Dynamic | OtherStrategy(name: string)
  datatype Affinity = AnyAvailable | OnDedicatedHost | OtherAffinity(name: string)
  datatype MarketType = Unset | OnDemand | SpotType | CapacityBlock | OtherMarket(name: string)

  datatype DedicatedHost = DedicatedHost(strategy: Option<AllocationStrategy>, id: string)
  datatype HostPlacement = HostPlacement(affinity: Affinity, dedicatedHost: Option<DedicatedHost>)

  datatype LoadBalancerType = Network | Classic
  datatype LoadBalancer = LoadBalancer(name: string, kind: LoadBalancerType)

  /** SpotMarketOptions with its maximal price. */
  datatype Spot = Spot(maxPrice: Option<string>)

  datatype Market = Market(marketType: MarketType, spot: Option<Spot>)

  datatype Spec = Spec(
    zone: string,
    subnetByID: bool,
    tenancy: Tenancy,
    host: Option<HostPlacement>,
    groupName: string,
    groupPartition: Option<int>,
    reservationID: string,
    market: Market,
    loadBalancers: seq<LoadBalancer>,
    tags: seq<Tag>
  )

  // ---- Dedicated hosts ----

  predicate ShouldAllocateHost(spec: Spec) {
    spec.host.Some? && spec.host.value.dedicatedHost.Some?
      && spec.host.value.dedicatedHost.value.strategy == Some(Dynamic)
  }

  /** The host the user brings, or "". */
  function UserHostID(spec: Spec): string {
    if spec.host.None? || spec.host.value.dedicatedHost.None? then ""
    else
      var d := spec.host.value.dedicatedHost.value;
      if d.strategy.None? || d.strategy == Some(UserProvided) then d.id else ""
  }

  predicate BringsOwnHost(spec: Spec) {
    UserHostID(spec) != ""
  }

  // ---- Placement ----

  datatype PlacementError = InvalidTenancy | HostIDRequired | InvalidAffinity

  /** The host ID in the spec whatever the allocation strategy, or "". */
  function SpecHostID(spec: Spec): string {
    if spec.host.None? || spec.host.value.dedicatedHost.None? then "" else spec.host.value.dedicatedHost.value.id
  }

  function NonEmpty(s: string): Option<string> {
    if s == "" then None else Some(s)
  }

  /** The placement of a launch: with host placement only tenancy, affinity and host are requested. */
  function Placement(spec: Spec, allocatedHost: string): Result<Option<PlacementRequest>, PlacementError> {
    if spec.tenancy.OtherTenancy? then Err(InvalidTenancy)
    else if spec.host.None? then
      var p := PlacementRequest(
        if spec.subnetByID then None else NonEmpty(spec.zone),
        NonEmpty(spec.groupName),
        if spec.groupName == "" then None else spec.groupPartition,
        if spec.tenancy.NoTenancy? then None else Some(spec.tenancy), None, None);
      Ok(if p == PlacementRequest(None, None, None, None, None, None) then None else Some(p))
    else if spec.host.value.affinity.OtherAffinity? then Err(InvalidAffinity)
    else
      var hostID := if allocatedHost != "" then allocatedHost else SpecHostID(spec);
      if spec.host.value.affinity.OnDedicatedHost? && hostID == "" then Err(HostIDRequired)
      else
        Ok(Some(PlacementRequest(None, None, None,
          if spec.tenancy.NoTenancy? then None else Some(HostTenancy),
          Some(if spec.host.value.affinity.AnyAvailable? then DefaultAffinity else HostBound),
          NonEmpty(hostID))))
  }

  /** The specs and hosts for which no placement can be requested. */
  predicate RefusedPlacement(spec: Spec, allocatedHost: string) {
    || spec.tenancy.OtherTenancy?
    || (spec.host.Some? && spec.host.value.affinity.OtherAffinity?)
    || (&& spec.host.Some? && spec.host.value.affinity.OnDedicatedHost?
        && allocatedHost == ""
        && (spec.host.value.dedicatedHost.None? || spec.host.value.dedicatedHost.value.id == ""))
  }

  /** The tenancy is looked at first, then the affinity, then the host. */
  predicate PlacementFault(error: PlacementError, spec: Spec) {
    && (error == InvalidTenancy <==> spec.tenancy.OtherTenancy?)
    && (error == InvalidAffinity <==>
          !spec.tenancy.OtherTenancy? && spec.host.Some? && spec.host.value.affinity.OtherAffinity?)
  }

  /** What each field of a placement request must be, on the spec: with host placement the tenancy, the affinity and the
      host alone, else zone, group, partition and tenancy. Nothing is requested when every field would be empty. */
  predicate Places(request: Option<PlacementRequest>, spec: Spec, allocatedHost: string) {
    if spec.host.Some? then
      && request.Some?
      && var p, host := request.value, spec.host.value;
      && p.zone == None && p.groupName == None && p.partition == None
      && p.tenancy == (if spec.tenancy == NoTenancy then None else Some(HostTenancy))
      && (p.affinity == Some(HostBound) <==> host.affinity == OnDedicatedHost)
      && (p.affinity == Some(DefaultAffinity) <==> host.affinity == AnyAvailable)
      && (allocatedHost != "" ==> p.hostID == Some(allocatedHost))
      && (allocatedHost == "" ==>
            match host.dedicatedHost
            case None => p.hostID == None
            case Some(d) => if d.id == "" then p.hostID == None else p.hostID == Some(d.id))
    else
      && (request.None? <==>
            (spec.zone == "" || spec.subnetByID) && spec.groupName == "" && spec.tenancy == NoTenancy)
      && (request.Some? ==>
            var p := request.value;
            && (spec.zone != "" && !spec.subnetByID ==> p.zone == Some(spec.zone))
            && (spec.zone == "" || spec.subnetByID ==> p.zone == None)
            && (spec.groupName != "" ==> p.groupName == Some(spec.groupName) && p.partition == spec.groupPartition)
            && (spec.groupName == "" ==> p.groupName == None && p.partition == None)
            && p.tenancy == (if spec.tenancy == NoTenancy then None else Some(spec.tenancy))
            && p.affinity == None && p.hostID == None)
  }

  lemma PlacementShape(spec: Spec, allocatedHost: string)
    ensures var r := Placement(spec, allocatedHost);
      && (r.Err? <==> RefusedPlacement(spec, allocatedHost))
      && (r.Err? ==> PlacementFault(r.error, spec))
      && (r.Ok? ==> Places(r.value, spec, allocatedHost))
  {
  }

  method ConstructInstancePlacement(spec: Spec, allocatedHost: string)
    returns (r: Result<Option<PlacementRequest>, PlacementError>)
    ensures r == Placement(spec, allocatedHost)
    ensures r.Err? <==> RefusedPlacement(spec, allocatedHost)
    ensures r.Err? ==> PlacementFault(r.error, spec)
    ensures r.Ok? ==> Places(r.value, spec, allocatedHost)
  {
    PlacementShape(spec, allocatedHost);
    hide Places, RefusedPlacement, PlacementFault;
    var empty := PlacementRequest(None, None, None, None, None, None);
    var placement := empty;
    if spec.zone != "" && !spec.subnetByID {
      placement := placement.(zone := Some(spec.zone));
    }
    if spec.groupName != "" {
      placement := placement.(groupName := Some(spec.groupName));
      if spec.groupPartition.Some? {
        placement := placement.(partition := spec.groupPartition);
      }
    }
    match spec.tenancy {
      case NoTenancy =>
      case OtherTenancy(_) => return Err(InvalidTenancy);
      case _ => placement := placement.(tenancy := Some(spec.tenancy));
    }
    if spec.host.Some? {
      var host := spec.host.value;
      match host.affinity {
        case AnyAvailable =>
          placement := placement.(affinity := Some(DefaultAffinity));
        case OnDedicatedHost =>
          placement := placement.(affinity := Some(HostBound));
          if allocatedHost == "" && (host.dedicatedHost.None? || host.dedicatedHost.value.id == "") {
            return Err(HostIDRequired);
          }
        case OtherAffinity(_) =>
          return Err(InvalidAffinity);
      }
      var hostID: Option<string> := None;
      if allocatedHost != "" {
        hostID := Some(allocatedHost);
      } else if host.dedicatedHost.Some? && host.dedicatedHost.value.id != "" {
        hostID := Some(host.dedicatedHost.value.id);
      }
      var tenancy: Option<Tenancy> := None;
      if spec.tenancy != NoTenancy {
        tenancy := Some(HostTenancy);
      }
      placement := PlacementRequest(None, None, None, tenancy, placement.affinity, hostID);
    }
    if placement == empty {
      return Ok(None);
    }
    return Ok(Some(placement));
  }

  /** An allocated host is the one requested, whatever the spec names. */
  lemma AllocatedHostIsRequested(spec: Spec, allocatedHost: string)
    requires allocatedHost != "" && spec.host.Some? && Placement(spec, allocatedHost).Ok?
    ensures Placement(spec, allocatedHost).value.Some?
    ensures Placement(spec, allocatedHost).value.value.hostID == Some(allocatedHost)
  {
  }

  // ---- Capacity reservation ----

  predicate HexDigit(c: char) {
    '0' <= c <= '9' || 'a' <= c <= 'f'
  }

  /** "cr-" and 17 hexadecimal digits. */
  predicate ValidReservationID(id: string) {
    |id| == 20 && "cr-" <= id && forall i :: 3 <= i < 20 ==> HexDigit(id[i])
  }

  lemma CapacityReservationShape(id: string)
    ensures var r := CapacityReservation(id);
      && (r.Err? <==> id != "" && !ValidReservationID(id))
      && (r.Ok? && id == "" ==> r.value == None)
      && (r.Ok? && id != "" ==> r.value == Some(id))
  {
  }

  function CapacityReservation(id: string): Result<Option<string>, ()> {
    if id == "" then Ok(None) else if ValidReservationID(id) then Ok(Some(id)) else Err(())
  }

  // ---- Market options ----

  datatype MarketError = SpotCapacityBlock | SpotWithReservation | ReservationRequired | InvalidMarketType

  function RejectedMarket(m: Market, reservationID: string): Option<MarketError> {
    if m.marketType == CapacityBlock && m.spot.Some? then Some(SpotCapacityBlock)
    else if (m.marketType == SpotType || m.spot.Some?) && reservationID != "" then Some(SpotWithReservation)
    else None
  }

  /** The market settings as the computation of the request leaves them in the spec. */
  function SettledMarket(m: Market, reservationID: string): Market {
    if RejectedMarket(m, reservationID).Some? then m
    else
      var marketType :=
        if m.marketType != Unset then m.marketType else if m.spot.Some? then SpotType else OnDemand;
      Market(marketType, if marketType == SpotType && m.spot.None? then Some(Spot(None)) else m.spot)
  }

  function MarketOptions(m: Market, reservationID: string): Result<Option<MarketRequest>, MarketError> {
    if RejectedMarket(m, reservationID).Some? then Err(RejectedMarket(m, reservationID).value)
    else
      var settled := SettledMarket(m, reservationID);
      if settled.marketType == CapacityBlock then
        if reservationID == "" then Err(ReservationRequired) else Ok(Some(CapacityBlockMarket))
      else if settled.marketType == SpotType then
        var price := settled.spot.value.maxPrice;
        Ok(Some(SpotMarket(if price == Some("") then None else price)))
      else if settled.marketType == OnDemand then Ok(None)
      else Err(InvalidMarketType)
  }

  /** The combinations of market type, spot options and reservation that can be launched. */
  predicate AcceptedMarket(m: Market, reservationID: string) {
    match m.marketType
    case CapacityBlock => m.spot.None? && reservationID != ""
    case SpotType => reservationID == ""
    case Unset => m.spot.None? || reservationID == ""
    case OnDemand => m.spot.None? || reservationID == ""
    case OtherMarket(_) => false
  }

  /** What is asked of the market: spot capacity with the spec's maximal price, a capacity block, or nothing. */
  predicate AsksMarket(request: Option<MarketRequest>, m: Market) {
    && (request == Some(CapacityBlockMarket) <==> m.marketType == CapacityBlock)
    && ((request.Some? && request.value.SpotMarket?) <==>
          m.marketType == SpotType || (m.marketType == Unset && m.spot.Some?))
    && (request.Some? && request.value.SpotMarket? ==>
          if m.spot.Some? && m.spot.value.maxPrice.Some? && m.spot.value.maxPrice.value != ""
          then request.value.maxPrice == m.spot.value.maxPrice else request.value.maxPrice == None)
  }

  /** Spot options are looked at first, with a capacity block and with a reservation. */
  predicate MarketFault(error: MarketError, m: Market, reservationID: string) {
    match error
    case SpotCapacityBlock => m.marketType == CapacityBlock && m.spot.Some?
    case SpotWithReservation =>
      && !(m.marketType == CapacityBlock && m.spot.Some?)
      && (m.marketType == SpotType || m.spot.Some?) && reservationID != ""
    case ReservationRequired => m.marketType == CapacityBlock && m.spot.None? && reservationID == ""
    case InvalidMarketType => m.marketType.OtherMarket? && !(m.spot.Some? && reservationID != "")
  }

  lemma MarketShape(m: Market, reservationID: string)
    ensures var r := MarketOptions(m, reservationID);
      && (r.Ok? <==> AcceptedMarket(m, reservationID))
      && (r.Err? ==> MarketFault(r.error, m, reservationID))
      && (r.Ok? ==> AsksMarket(r.value, m))
  {
  }

  /** The decoded spec of one reconcile step; market settings are completed in place. */
  class ProviderConfig {
    const spec: Spec
    var marketType: MarketType
    var spotMarketOptions: Option<Spot>

    constructor (spec: Spec)
      ensures this.spec == spec && CurrentMarket() == spec.market
    {
      this.spec := spec;
      marketType := spec.market.marketType;
      spotMarketOptions := spec.market.spot;
    }

    function CurrentMarket(): Market
      reads this
    {
      Market(marketType, spotMarketOptions)
    }

    /** Although the settings are completed in place, asking again gives the same answer and changes nothing more. */
    method GetInstanceMarketOptionsRequest() returns (r: Result<Option<MarketRequest>, MarketError>)
      modifies this
      ensures r == MarketOptions(old(CurrentMarket()), spec.reservationID)
      ensures CurrentMarket() == SettledMarket(old(CurrentMarket()), spec.reservationID)
      ensures r.Ok? <==> AcceptedMarket(old(CurrentMarket()), spec.reservationID)
      ensures r.Ok? ==> AsksMarket(r.value, old(CurrentMarket()))
      ensures r.Err? ==> MarketFault(r.error, old(CurrentMarket()), spec.reservationID)
      ensures MarketOptions(CurrentMarket(), spec.reservationID) == r
      ensures SettledMarket(CurrentMarket(), spec.reservationID) == CurrentMarket()
    {
      if marketType != Unset && marketType == CapacityBlock && spotMarketOptions.Some? {
        return Err(SpotCapacityBlock);
      }
      if (marketType == SpotType || spotMarketOptions.Some?) && spec.reservationID != "" {
        return Err(SpotWithReservation);
      }
      if spotMarketOptions.Some? && marketType == Unset {
        marketType := SpotType;
      }
      if marketType == Unset {
        marketType := OnDemand;
      }
      if marketType == SpotType && spotMarketOptions.None? {
        spotMarketOptions := Some(Spot(None));
      }
      if marketType == CapacityBlock {
        if spec.reservationID == "" {
          return Err(ReservationRequired);
        }
        return Ok(Some(CapacityBlockMarket));
      } else if marketType == SpotType {
        var maxPrice := spotMarketOptions.value.maxPrice;
        if maxPrice.GetOr("") != "" {
          return Ok(Some(SpotMarket(maxPrice)));
        }
        return Ok(Some(SpotMarket(None)));
      } else if marketType == OnDemand {
        return Ok(None);
      } else {
        return Err(InvalidMarketType);
      }
    }
  }
}
