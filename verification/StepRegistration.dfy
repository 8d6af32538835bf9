/** What create and update leave behind in the target groups of network load balancers
    (pkg/actuators/machine/reconciler.go, pkg/actuators/machine/loadbalancers.go). */
module StepRegistration {
  import opened Cloud
  import InstanceOrder
  import opened ProviderSpec
  import opened Launch
  import opened LoadBalancers
  import opened Registration
  import opened Lookup
  import opened Steps
  import opened Runs
  import opened StepEffects

  /** Attaching an instance at this point gathers the group for one of the configured network load balancers. */
  predicate Gathers(w: World, log: Log, lbs: seq<LoadBalancer>, instance: Instance, g: TargetGroup) {
    var classic := RegisterClassicAll(w, log, Names(lbs, Classic), instance.id.GetOr(""));
    Names(lbs, Network) != [] && g in GatherTargetGroups(w, classic.log, Names(lbs, Network)).value.GetOr([])
  }

  lemma {:induction false} AttachedMeansMember(w: World, initial: string -> set<string>, log: Log,
                                               lbs: seq<LoadBalancer>, instance: Instance, g: TargetGroup, later: Log)
    requires Truthful(w, initial, g.arn)
    requires Attach(w, log, lbs, instance).value && Gathers(w, log, lbs, instance, g)
    requires NothingRemoved(Attach(w, log, lbs, instance).log, later)
    ensures Holds(Members(initial, later, g.arn), g, instance)
  {
    hide Truthful, Members, RegisterNetwork, GatherTargetGroups;
    var classic := RegisterClassicAll(w, log, Names(lbs, Classic), instance.id.GetOr(""));
    NilErrorMeansMember(w, initial, classic.log, Names(lbs, Network), instance, g);
    MembersStay(initial, Attach(w, log, lbs, instance).log, later, g.arn);
  }

  lemma StillNothingRemoved(log: Log, next: Log, later: Log)
    requires NothingRemoved(log, next) && NothingRemoved(next, later)
    ensures NothingRemoved(log, later)
  {
    forall k | |log| <= k < |later| ensures !later[k].DeregisterTargets? {
      if k < |next| {
        assert later[k] == next[k];
      }
    }
  }

  lemma RecordingRemovesNothing(w: World, log: Log, input: Input, rec: Record, instance: Instance, host: string)
    requires Attach(w, log, input.spec.loadBalancers, instance).value
    ensures NothingRemoved(Attach(w, log, input.spec.loadBalancers, instance).log,
                           AfterLaunch(w, log, input, rec, instance, host).log)
  {
    hide Attach;
  }

  lemma AdoptingRemovesNothing(w: World, log: Log, input: Input, rec: Record, instance: Instance)
    requires input.infra.Ok?
    ensures NothingRemoved(log, Adopt(w, log, input, rec, input.infra.value, instance).log)
  {
  }

  /** After a create step whose launched instance was attached, and as long as nothing is deregistered: every group
      gathered for the network load balancers whose readable listings are right holds that instance. */
  lemma {:induction false} CreateLeavesMember(w: World, initial: string -> set<string>, s: System, step: Step,
                                              g: TargetGroup, later: Log)
    requires step.kind.Creating? && StartsInstance(w, s.log, step.input, s.stored)
    requires Attaches(w, s.log, step.input, s.stored)
    requires var launch := LaunchOf(w, s.log, step.input, s.stored);
      Gathers(w, launch.log, step.input.spec.loadBalancers, launch.value.instance, g)
    requires Truthful(w, initial, g.arn) && NothingRemoved(Next(w, s, step).log, later)
    ensures Holds(Members(initial, later, g.arn), g, LaunchOf(w, s.log, step.input, s.stored).value.instance)
  {
    hide Truthful, Members, Attach, Gathers, LaunchInstance, Preflight, AfterLaunch, NothingRemoved, Holds;
    var launch := LaunchOf(w, s.log, step.input, s.stored);
    RecordingRemovesNothing(w, launch.log, step.input, s.stored, launch.value.instance, launch.value.host);
    StillNothingRemoved(Attach(w, launch.log, step.input.spec.loadBalancers, launch.value.instance).log,
                        Next(w, s, step).log, later);
    AttachedMeansMember(w, initial, launch.log, step.input.spec.loadBalancers, launch.value.instance, g, later);
  }

  /** The running instances that an update step finds, newest first. */
  function RunningFound(w: World, s: System, step: Step): seq<Instance> {
    InstanceOrder.Running(InstanceOrder.Sorted(
      MachineInstances(w, s.log, step.input.machine, s.stored.instanceID).value.GetOr([])))
  }

  /** The same for an update step that finds a running instance, knows the infrastructure and gets the newest one
      attached. */
  lemma {:induction false} UpdateLeavesMember(w: World, initial: string -> set<string>, s: System, step: Step,
                                              g: TargetGroup, later: Log)
    requires step.kind.Updating? && ValidMachine(step.input.machine) && step.input.infra.Ok?
    requires RunningFound(w, s, step) != []
    requires var found := MachineInstances(w, s.log, step.input.machine, s.stored.instanceID);
      var newest := RunningFound(w, s, step)[0];
      && Attach(w, found.log, step.input.spec.loadBalancers, newest).value
      && Gathers(w, found.log, step.input.spec.loadBalancers, newest, g)
    requires Truthful(w, initial, g.arn) && NothingRemoved(Next(w, s, step).log, later)
    ensures Holds(Members(initial, later, g.arn), g, RunningFound(w, s, step)[0])
  {
    hide Truthful, Members, Attach, Gathers, MachineInstances, Adopt, NothingRemoved, Holds;
    var found := MachineInstances(w, s.log, step.input.machine, s.stored.instanceID);
    var newest := RunningFound(w, s, step)[0];
    var attached := Attach(w, found.log, step.input.spec.loadBalancers, newest);
    AdoptingRemovesNothing(w, attached.log, step.input, s.stored, newest);
    assert Next(w, s, step).log == Adopt(w, attached.log, step.input, s.stored, step.input.infra.value, newest).log;
    StillNothingRemoved(attached.log, Next(w, s, step).log, later);
    AttachedMeansMember(w, initial, found.log, step.input.spec.loadBalancers, newest, g, later);
  }
}
