/** What create and delete do to instances and hosts, and what stays of it in the record in memory
    (pkg/actuators/machine/reconciler.go). */
module StepEffects {
  import opened Wrappers
  import opened Cloud
  import InstanceOrder
  import opened Launch
  import opened Lookup
  import opened Steps
  import opened Effects
  import opened LaunchEffects
  import opened Quietness

  lemma RemovingStoppedEffects(w: World, log: Log, m: Machine, h: string)
    ensures var o := RemoveStopped(w, log, m);
      var added := Added(log, o.log, h);
      log <= o.log && added == NOTHING.(terminateCalls := added.terminateCalls) && 0 <= added.terminateCalls <= 1
  {
    hide Allowed, IDs;
    hide Allocations, Released, AllocateCalls, ReleaseCalls, Launches, TerminateCalls;
    var stopped := LookupByTags(w, log, m, STOPPED_STATES);
    assert Quiet(log, stopped.log);
    QuietAddsNothing(log, stopped.log, h);
    if stopped.value.Some? {
      var ids := IDs(stopped.value.value);
      AddedByEvent(stopped.log, TerminateInstances(ids, w.terminateInstances(stopped.log, ids)), h);
    }
  }

  /** Before a launch create can only terminate stopped instances. */
  lemma PreflightEffects(w: World, log: Log, input: Input, rec: Record, h: string)
    ensures var o := Preflight(w, log, input, rec);
      var added := Added(log, o.log, h);
      && log <= o.log && added == NOTHING.(terminateCalls := added.terminateCalls) && 0 <= added.terminateCalls <= 1
      && (o.value.None? ==> !HasID(rec.instanceID))
      && (o.value.Some? ==> !o.value.value.LoadBalancersFailed? && !o.value.value.LaunchFailed?)
  {
    hide MachineInstances, RemoveStopped;
    hide Allocations, Released, AllocateCalls, ReleaseCalls, Launches, TerminateCalls;
    var found := MachineInstances(w, log, input.machine, rec.instanceID);
    LookingUpIsQuiet(w, log, input.machine, rec.instanceID);
    QuietAddsNothing(log, found.log, h);
    RemovingStoppedEffects(w, found.log, input.machine, h);
  }

  /** The guards of a create step: its checks let the launch go ahead, and the launch that it then makes. */
  predicate ReachesLaunch(w: World, log: Log, input: Input, rec: Record) {
    Preflight(w, log, input, rec).value.None?
  }

  function LaunchOf(w: World, log: Log, input: Input, rec: Record): Out<LaunchResult> {
    LaunchInstance(w, Preflight(w, log, input, rec).log, ClusterID(input.machine).GetOr(""), input.spec)
  }

  /** The launch succeeds. */
  predicate StartsInstance(w: World, log: Log, input: Input, rec: Record) {
    ReachesLaunch(w, log, input, rec) && LaunchOf(w, log, input, rec).value.Launched?
  }

  /** The launched instance gets attached to its load balancers. */
  predicate Attaches(w: World, log: Log, input: Input, rec: Record)
    requires StartsInstance(w, log, input, rec)
  {
    var launch := LaunchOf(w, log, input, rec);
    Attach(w, launch.log, input.spec.loadBalancers, launch.value.instance).value
  }

  /** The step allocates this host. */
  predicate AllocatesHost(w: World, log: Log, input: Input, rec: Record, h: string) {
    ReachesLaunch(w, log, input, rec) && HostAllocatedBy(w, Preflight(w, log, input, rec).log, input.spec) == Some(h)
  }

  /** The host that a create step's launch returned, or "". */
  function HostLaunched(w: World, log: Log, input: Input, rec: Record): string {
    if StartsInstance(w, log, input, rec) then LaunchOf(w, log, input, rec).value.host else ""
  }

  /** The instance that update settles on. */
  function Settled(found: seq<Instance>): Instance
    requires found != []
  {
    InstanceOrder.SortedMeaning(found);
    InstanceOrder.Newest(InstanceOrder.Sorted(found))
  }

  lemma SettledIsChosen(found: seq<Instance>)
    requires found != []
    ensures InstanceOrder.Chosen(found, Settled(found))
  {
    InstanceOrder.SortedMeaning(found);
    InstanceOrder.NewestChoice(found, InstanceOrder.Sorted(found));
  }

  /** It is attached to its load balancers if it runs. */
  function AttachSettled(w: World, log: Log, input: Input, found: seq<Instance>): Out<bool>
    requires found != []
  {
    if InstanceOrder.Running(InstanceOrder.Sorted(found)) == [] then Out(true, log)
    else Attach(w, log, input.spec.loadBalancers, Settled(found))
  }

  /** Its tags are then corrected. */
  function CorrectSettled(w: World, log: Log, input: Input, found: seq<Instance>): Out<bool>
    requires found != [] && input.infra.Ok?
  {
    CorrectTags(w, AttachSettled(w, log, input, found).log, input, input.infra.value, Settled(found))
  }

  /** The guards of update on found instances: the infrastructure is known, the chosen instance gets attached if it
      runs, and its tags are corrected. */
  predicate GetsToStatus(w: World, log: Log, input: Input, found: seq<Instance>)
    requires found != []
  {
    input.infra.Ok? && AttachSettled(w, log, input, found).value && CorrectSettled(w, log, input, found).value
  }

  /** update on found instances records the ID of the chosen one exactly when it gets that far, and else keeps what it
      had. */
  lemma {:induction false} FoundRecordsID(w: World, log: Log, input: Input, rec: Record, found: seq<Instance>)
    requires found != []
    ensures UpdateFound(w, log, input, rec, found).value.rec.instanceID ==
      if GetsToStatus(w, log, input, found) then Settled(found).id else rec.instanceID
  {
    hide Attach, CorrectTags, InstanceOrder.Sorted;
    InstanceOrder.SortedMeaning(found);
  }

  /** update on found instances stops before it changes anything, or records the provider ID of the right instance, and
      unless its tags could not be corrected the instance ID too. */
  lemma UpdateRecordsTheNewest(w: World, log: Log, input: Input, rec: Record, found: seq<Instance>)
    requires found != []
    ensures var done := UpdateFound(w, log, input, rec, found).value;
      || (done.failure in {Some(InfrastructureFailed), Some(LoadBalancersFailed)} && done.rec == rec)
      || exists n :: InstanceOrder.Chosen(found, n)
           && done.rec.providerID == Some(ProviderID(n.zone, n.id))
           && done.rec.instanceID == (if done.failure == Some(TagsFailed) then rec.instanceID else n.id)
           && done.rec.host == rec.host
  {
    hide Attach, CorrectTags, InstanceOrder.Sorted, InstanceOrder.Chosen;
    InstanceOrder.SortedMeaning(found);
    var sorted := InstanceOrder.Sorted(found);
    InstanceOrder.NewestChoice(found, sorted);
    assert InstanceOrder.Chosen(found, InstanceOrder.Newest(sorted));
  }

  /** How a create step goes on after its launch. */
  lemma CreateOutcome(w: World, log: Log, input: Input, rec: Record)
    ensures var o := CreateStep(w, log, input, rec);
      && (!ReachesLaunch(w, log, input, rec) ==> o.log == Preflight(w, log, input, rec).log && o.value.rec == rec)
      && (ReachesLaunch(w, log, input, rec) && !StartsInstance(w, log, input, rec) ==>
            o.log == LaunchOf(w, log, input, rec).log && o.value.rec.host == rec.host && o.value.rec.instanceID == None)
      && (StartsInstance(w, log, input, rec) ==>
            var launch := LaunchOf(w, log, input, rec).value;
            && Quiet(LaunchOf(w, log, input, rec).log, o.log)
            && (!Attaches(w, log, input, rec) ==> o.value == Done(rec, Some(LoadBalancersFailed)))
            && (Attaches(w, log, input, rec) ==>
                  && o.value.failure == None && o.value.rec.instanceID == launch.instance.id
                  && HostOf(o.value.rec) == if launch.host != "" then launch.host else HostOf(rec)))
      && (o.value.failure in {None, Some(LoadBalancersFailed)} <==> StartsInstance(w, log, input, rec))
  {
    hide Preflight, LaunchInstance, Attach;
    PreflightEffects(w, log, input, rec, "");
    if StartsInstance(w, log, input, rec) {
      var launch := LaunchOf(w, log, input, rec);
      RecordingIsQuiet(w, launch.log, input, rec, launch.value.instance, launch.value.host);
    }
  }

  /** Where a host allocated by a create step is afterwards, and what the record in memory says. */
  lemma CreateEffects(w: World, log: Log, input: Input, rec: Record, h: string)
    requires h != ""
    ensures var o := CreateStep(w, log, input, rec);
      var added := Added(log, o.log, h);
      var host := HostLaunched(w, log, input, rec);
      var launch := LaunchOf(w, log, input, rec);
      && log <= o.log
      && added.allocations == One(AllocatesHost(w, log, input, rec, h))
      && added.allocations == added.released + One(host == h)
           + One(AllocatesHost(w, log, input, rec, h) && EndsWithOddReservation(launch.log))
           + One(AllocatesHost(w, log, input, rec, h) && EndsWithRefusedRelease(launch.log))
      && added.launches == One(ReachesLaunch(w, log, input, rec) && StartedAny(launch.log))
      && (StartsInstance(w, log, input, rec) ==> added.released == 0 && StartedAny(launch.log))
      && (ReachesLaunch(w, log, input, rec) ==> !HasID(rec.instanceID))
      && HostOf(o.value.rec) ==
           (if host != "" && Attaches(w, log, input, rec) then host else HostOf(rec))
  {
    hide Preflight, LaunchInstance, CreateStep;
    hide Allocations, Released, AllocateCalls, ReleaseCalls, Launches, TerminateCalls;
    CreateOutcome(w, log, input, rec);
    PreflightEffects(w, log, input, rec, h);
    if ReachesLaunch(w, log, input, rec) {
      var pre, clusterID := Preflight(w, log, input, rec), ClusterID(input.machine).GetOr("");
      LaunchLedger(w, pre.log, clusterID, input.spec, h);
      if StartsInstance(w, log, input, rec) {
        QuietAddsNothing(LaunchOf(w, log, input, rec).log, CreateStep(w, log, input, rec).log, h);
      }
    }
  }

  /** delete releases at most the recorded host, and the record in memory forgets it exactly when AWS released it. */
  lemma DeleteEffects(w: World, log: Log, input: Input, rec: Record, h: string)
    requires h != ""
    ensures var o := DeleteStep(w, log, input, rec);
      var added := Added(log, o.log, h);
      && log <= o.log
      && added == NOTHING.(released := added.released, releaseCalls := added.releaseCalls,
         terminateCalls := added.terminateCalls)
      && added.released == One(HostOf(rec) == h && HostOf(o.value.rec) == "")
      && HostOf(o.value.rec) in {HostOf(rec), ""}
      && o.value.rec.instanceID == rec.instanceID
  {
    hide MachineInstances, Detach, IDs;
    hide Allocations, Released, AllocateCalls, ReleaseCalls, Launches, TerminateCalls;
    var found := MachineInstances(w, log, input.machine, rec.instanceID);
    LookingUpIsQuiet(w, log, input.machine, rec.instanceID);
    QuietAddsNothing(log, found.log, h);
    if found.value.Some? && found.value.value != [] {
      var instances := found.value.value;
      if IsTerminated(instances[0]) {
        if HostOf(rec) != "" {
          AddedByEvent(found.log, ReleaseHosts(HostOf(rec), w.releaseHosts(found.log, HostOf(rec))), h);
        }
      } else {
        var detached := Detach(w, found.log, input.spec.loadBalancers, instances);
        DetachingNamedIsQuiet(w, found.log, input.spec.loadBalancers, instances);
        QuietAddsNothing(found.log, detached.log, h);
        AddedByEvent(detached.log, TerminateInstances(IDs(instances),
                     w.terminateInstances(detached.log, IDs(instances))), h);
      }
    }
  }
}
