/** The four reconcile operations on one machine, as functions of the history of requests
    (pkg/actuators/machine/reconciler.go, pkg/actuators/machine/machine_scope.go). */
module Steps {
  import opened Wrappers
  import opened Tags
  import opened TagCorrection
  import opened Cloud
  import opened Conditions
  import opened InstanceOrder
  import opened ProviderSpec
  import opened Launch
  import opened LoadBalancers
  import opened Lookup

  /** Times are in nanoseconds. */
  const SECOND := 1_000_000_000
  const REQUEUE_AFTER := 20 * SECOND
  const REQUEUE_AFTER_FATAL := 180 * SECOND

  /** What a step reads from and writes to the machine object. The first two fields belong to the main resource,
      the others to its status. */
  datatype Record = Record(
    providerID: Option<string>,
    stateAnnotation: Option<InstanceState>,
    instanceID: Option<string>,
    instanceState: Option<InstanceState>,
    host: Option<string>,
    conditions: seq<Condition>,
    addresses: seq<string>
  )

  /** The dynamically allocated host a record names, or "". */
  function HostOf(rec: Record): string {
    rec.host.GetOr("")
  }

  /** What one step is given: the machine, its spec, the answers of the Kubernetes API, the time,
      and how errors read. */
  datatype Input = Input(
    machine: Machine,
    spec: Spec,
    isMaster: Result<bool, ApiError>,
    hasUserData: bool,
    infra: Result<Option<seq<Tag>>, ApiError>,
    now: int,
    lastUpdated: Option<int>,
    errorText: LaunchError -> string
  )

  datatype Failure =
    | LookupFailed
    | FoundTerminated
    | FoundExisting
    | AlreadyCreated
    | MissingClusterLabel
    | RemoveStoppedFailed
    | UserDataFailed
    | InfrastructureFailed
    | LaunchFailed(launchError: LaunchError)
    | LoadBalancersFailed
    | TerminateFailed
    | TagsFailed
    | RequeueAfter(delay: int)

  datatype Done = Done(rec: Record, failure: Option<Failure>)

  // ---- The operations as functions of the history ----

  function Names(lbs: seq<LoadBalancer>, kind: LoadBalancerType): seq<string> {
    if lbs == [] then []
    else
      var n := |lbs| - 1;
      Names(lbs[..n], kind) + (if lbs[n].kind == kind then [lbs[n].name] else [])
  }

  /** Classic load balancers first, then network ones, even if the former failed. */
  function Attach(w: World, log: Log, lbs: seq<LoadBalancer>, instance: Instance): Out<bool> {
    var classic := RegisterClassicAll(w, log, Names(lbs, Classic), instance.id.GetOr(""));
    if Names(lbs, Network) == [] then classic
    else
      var network := RegisterNetwork(w, classic.log, Names(lbs, Network), instance);
      Out(classic.value && network.value, network.log)
  }

  /** Every instance is detached, whatever happened to the ones before it. */
  function DetachAll(w: World, log: Log, names: seq<string>, instances: seq<Instance>): Out<bool>
    decreases |instances|
  {
    if instances == [] then Out(true, log)
    else
      var first := DeregisterNetwork(w, log, names, instances[0]);
      var rest := DetachAll(w, first.log, names, instances[1..]);
      Out(first.value && rest.value, rest.log)
  }

  function Detach(w: World, log: Log, lbs: seq<LoadBalancer>, instances: seq<Instance>): Out<bool> {
    if Names(lbs, Network) == [] then Out(true, log) else DetachAll(w, log, Names(lbs, Network), instances)
  }

  /** The status without an instance. */
  function WithoutInstance(rec: Record, condition: Condition, now: int): Record {
    rec.(instanceID := None, instanceState := None, addresses := [],
         conditions := WithCondition(condition, rec.conditions, now))
  }

  /** The status with an instance. When its addresses cannot be computed, only its ID and state are taken over. */
  function WithInstance(w: World, log: Log, rec: Record, instance: Instance, condition: Condition,
                        now: int): Out<Record> {
    var reply := w.nodeAddresses(log, instance);
    var named := rec.(instanceID := instance.id, instanceState := instance.state);
    Out(if reply.Err? then named
        else named.(addresses := reply.value, conditions := WithCondition(condition, rec.conditions, now)),
        log + [NodeAddresses(instance, reply)])
  }

  /** A recorded instance that was never seen may still be about to appear. */
  predicate MayAppear(rec: Record, input: Input) {
    HasID(rec.instanceID) && rec.addresses == [] &&
    (input.lastUpdated.None? || input.lastUpdated.value + REQUEUE_AFTER > input.now)
  }

  function ProviderID(zone: string, id: Option<string>): string {
    "aws:///" + zone + "/" + id.GetOr("")
  }

  // create

  function RemoveStopped(w: World, log: Log, m: Machine): Out<bool> {
    var stopped := LookupByTags(w, log, m, STOPPED_STATES);
    if stopped.value.None? then Out(false, stopped.log)
    else if stopped.value.value == [] then Out(true, stopped.log)
    else
      var t := Terminate(w, stopped.log, stopped.value.value);
      Out(t.value.Some?, t.log)
  }

  /** What create checks and does before it launches; None lets the launch go ahead. */
  function Preflight(w: World, log: Log, input: Input, rec: Record): Out<Option<Failure>> {
    var found := MachineInstances(w, log, input.machine, rec.instanceID);
    if found.value.Some? && found.value.value != [] then
      Out(Some(if IsTerminated(found.value.value[0]) then FoundTerminated else FoundExisting), found.log)
    else if HasID(rec.instanceID) then Out(Some(AlreadyCreated), found.log)
    else if !ValidMachine(input.machine) then Out(Some(MissingClusterLabel), found.log)
    else
      var removed := if input.isMaster == Ok(false)
        then RemoveStopped(w, found.log, input.machine) else Out(true, found.log);
      Out(if !removed.value then Some(RemoveStoppedFailed)
          else if !input.hasUserData then Some(UserDataFailed)
          else if input.infra.Err? then Some(InfrastructureFailed)
          else None,
          removed.log)
  }

  function AfterLaunch(w: World, log: Log, input: Input, rec: Record, instance: Instance, host: string): Out<Done> {
    var attached := Attach(w, log, input.spec.loadBalancers, instance);
    if !attached.value then Out(Done(rec, Some(LoadBalancersFailed)), attached.log)
    else
      var status := WithInstance(w, attached.log, rec, instance, ConditionSuccess(), input.now);
      Out(Done(status.value.(host := if host != "" then Some(host) else rec.host, addresses := []), None), status.log)
  }

  function CreateStep(w: World, log: Log, input: Input, rec: Record): Out<Done> {
    var pre := Preflight(w, log, input, rec);
    if pre.value.Some? then Out(Done(rec, pre.value), pre.log)
    else
      var launch := LaunchInstance(w, pre.log, ClusterID(input.machine).GetOr(""), input.spec);
      match launch.value
      case NotLaunched(e) =>
        Out(Done(WithoutInstance(rec, ConditionFailed(input.errorText(e)), input.now), Some(LaunchFailed(e))),
            launch.log)
      case Launched(instance, host) => AfterLaunch(w, launch.log, input, rec, instance, host)
  }

  // delete

  function ReleaseHost(w: World, log: Log, rec: Record): Out<Record> {
    if HostOf(rec) == "" then Out(rec, log)
    else
      var reply := w.releaseHosts(log, HostOf(rec));
      Out(if ReleaseSucceeded(reply) then rec.(host := Some("")) else rec, log + [ReleaseHosts(HostOf(rec), reply)])
  }

  function DeleteStep(w: World, log: Log, input: Input, rec: Record): Out<Done> {
    var found := MachineInstances(w, log, input.machine, rec.instanceID);
    if found.value.None? then Out(Done(rec, Some(LookupFailed)), found.log)
    else if found.value.value == [] then Out(Done(rec, None), found.log)
    else if IsTerminated(found.value.value[0]) then
      var released := ReleaseHost(w, found.log, rec);
      Out(Done(released.value.(stateAnnotation := Some(Terminated)), None), released.log)
    else
      var detached := Detach(w, found.log, input.spec.loadBalancers, found.value.value);
      if !detached.value then Out(Done(rec, Some(LoadBalancersFailed)), detached.log)
      else
        var t := Terminate(w, detached.log, found.value.value);
        if t.value.None? then Out(Done(rec, Some(TerminateFailed)), t.log)
        else
          var states := t.value.value;
          Out(Done(if |states| == 1 && states[0].Some? then rec.(stateAnnotation := states[0]) else rec, None), t.log)
  }

  // update

  /** Nothing found: wait for the instance to appear, or give the machine up. */
  function UpdateMissing(input: Input, rec: Record): Done {
    if MayAppear(rec, input) then Done(rec, Some(RequeueAfter(REQUEUE_AFTER)))
    else
      var named := if HasID(rec.instanceID) then rec
        else rec.(providerID := Some(ProviderID(input.spec.zone, rec.instanceID)));
      Done(WithoutInstance(named, ConditionSuccess(), input.now), Some(RequeueAfter(REQUEUE_AFTER_FATAL)))
  }

  function CorrectTags(w: World, log: Log, input: Input, infraTags: Option<seq<Tag>>, instance: Instance): Out<bool> {
    var clusterID := ClusterID(input.machine).GetOr("");
    var wanted := TagList(input.machine.name, clusterID, input.spec.tags, infraTags);
    var needed := Needed(input.machine.name, clusterID, wanted, instance.tags);
    if needed == multiset{} then Out(true, log)
    else
      var ok := w.createTags(log, instance.id.GetOr(""), needed);
      Out(ok, log + [CreateTags(instance.id.GetOr(""), needed, ok)])
  }

  function Adopt(w: World, log: Log, input: Input, rec: Record, infraTags: Option<seq<Tag>>,
                 newest: Instance): Out<Done> {
    var noted := rec.(providerID := Some(ProviderID(newest.zone, newest.id)),
                      stateAnnotation := if newest.state.Some? then newest.state else rec.stateAnnotation);
    var corrected := CorrectTags(w, log, input, infraTags, newest);
    if !corrected.value then Out(Done(noted, Some(TagsFailed)), corrected.log)
    else
      var status := WithInstance(w, corrected.log, noted, newest, ConditionSuccess(), input.now);
      Out(Done(status.value, if newest.state == Some(Pending)
        then Some(RequeueAfter(REQUEUE_AFTER)) else None), status.log)
  }

  function UpdateFound(w: World, log: Log, input: Input, rec: Record, found: seq<Instance>): Out<Done>
    requires found != []
  {
    if input.infra.Err? then Out(Done(rec, Some(InfrastructureFailed)), log)
    else
      SortedMeaning(found);
      var sorted := Sorted(found);
      if InstanceOrder.Running(sorted) == [] then Adopt(w, log, input, rec, input.infra.value, sorted[0])
      else
        var attached := Attach(w, log, input.spec.loadBalancers, InstanceOrder.Running(sorted)[0]);
        if !attached.value then Out(Done(rec, Some(LoadBalancersFailed)), attached.log)
        else Adopt(w, attached.log, input, rec, input.infra.value, InstanceOrder.Running(sorted)[0])
  }

  function UpdateStep(w: World, log: Log, input: Input, rec: Record): Out<Done> {
    if !ValidMachine(input.machine) then Out(Done(rec, Some(MissingClusterLabel)), log)
    else
      var found := MachineInstances(w, log, input.machine, rec.instanceID);
      if found.value.None? then Out(Done(rec, Some(LookupFailed)), found.log)
      else if found.value.value == [] then Out(UpdateMissing(input, rec), found.log)
      else UpdateFound(w, found.log, input, rec, found.value.value)
  }

  // exists

  function ExistsStep(w: World, log: Log, input: Input, rec: Record): Out<Result<bool, Failure>> {
    var found := MachineInstances(w, log, input.machine, rec.instanceID);
    Out(if found.value.None? then Err(LookupFailed)
        else if found.value.value == [] then
          if MayAppear(rec, input) then Err(RequeueAfter(REQUEUE_AFTER)) else Ok(false)
        else Ok(!IsTerminated(found.value.value[0])),
        found.log)
  }
}
