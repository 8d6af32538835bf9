/** Where every dynamically allocated dedicated host ends up, over every run
    (pkg/actuators/machine/reconciler.go, pkg/actuators/machine/instances.go). */
module HostLedger {
  import opened Wrappers
  import opened Cloud
  import opened Launch
  import opened Lookup
  import opened Steps
  import opened Runs
  import opened Effects
  import opened LaunchEffects
  import opened StepEffects
  import opened Quietness

  /** The ways in which the provider loses sight of a host that is still allocated. */
  datatype Cause =
    | ReleaseRefused      // the launch gave up and AWS did not carry out the release
    | Unexpected          // AWS answered RunInstances with a number of instances other than one
    | NotAttached         // launched, but load balancer registration failed
    | Overwritten         // the status held this host and a relaunch stored another one
    | NotStored           // launched, but the patch of the record was rejected

  function Held(rec: Record, h: string): nat {
    One(HostOf(rec) == h)
  }

  /** Whether a step loses host h for the given cause, told from what AWS answered and from the patch. */
  predicate Loses(w: World, s: System, step: Step, h: string, cause: Cause) {
    step.kind.Creating? &&
    match cause
    case ReleaseRefused =>
      && AllocatesHost(w, s.log, step.input, s.stored, h)
      && EndsWithRefusedRelease(LaunchOf(w, s.log, step.input, s.stored).log)
    case Unexpected =>
      && AllocatesHost(w, s.log, step.input, s.stored, h)
      && EndsWithOddReservation(LaunchOf(w, s.log, step.input, s.stored).log)
    case NotAttached =>
      && StartsInstance(w, s.log, step.input, s.stored)
      && LaunchOf(w, s.log, step.input, s.stored).value.host == h
      && !Attaches(w, s.log, step.input, s.stored)
    case Overwritten =>
      && HostOf(s.stored) == h
      && StartsInstance(w, s.log, step.input, s.stored)
      && LaunchOf(w, s.log, step.input, s.stored).value.host != ""
      && Attaches(w, s.log, step.input, s.stored)
      && step.patch.Patched?
    case NotStored =>
      && StartsInstance(w, s.log, step.input, s.stored)
      && LaunchOf(w, s.log, step.input, s.stored).value.host == h
      && Attaches(w, s.log, step.input, s.stored)
      && !step.patch.Patched?
  }

  function Lost(w: World, s: System, step: Step, h: string, cause: Cause): nat {
    One(Loses(w, s, step, h, cause))
  }

  /** A delete step that released the host but could not store that it did: the record still names it. */
  function Stale(w: World, s: System, step: Step, h: string): nat {
    var o := Perform(w, s, step);
    One(step.kind.Deleting? && Released(o.log, h) > Released(s.log, h) && !step.patch.Patched?)
  }

  function AllLost(w: World, s: System, step: Step, h: string): nat {
    Lost(w, s, step, h, ReleaseRefused) + Lost(w, s, step, h, Unexpected) + Lost(w, s, step, h, NotAttached)
    + Lost(w, s, step, h, Overwritten) + Lost(w, s, step, h, NotStored)
  }

  /** One step conserves hosts. */
  lemma {:induction false} StepLedger(w: World, s: System, step: Step, h: string)
    requires h != ""
    ensures var next := Next(w, s, step);
      && s.log <= next.log
      && Held(s.stored, h) + (Allocations(next.log, h) - Allocations(s.log, h)) + Stale(w, s, step, h)
         == Held(next.stored, h) + (Released(next.log, h) - Released(s.log, h)) + AllLost(w, s, step, h)
  {
    hide CreateStep, DeleteStep, UpdateStep, ExistsStep, Preflight, LaunchInstance, Attach, HostAllocatedBy;
    hide Allocations, Released, AllocateCalls, ReleaseCalls, Launches, TerminateCalls, Quiet;
    match step.kind
    case Creating =>
      CreateEffects(w, s.log, step.input, s.stored, h);
    case Deleting =>
      DeleteEffects(w, s.log, step.input, s.stored, h);
    case Updating =>
      UpdatingIsQuiet(w, s.log, step.input, s.stored);
      QuietAddsNothing(s.log, Next(w, s, step).log, h);
      UpdateKeepsHost(w, s.log, step.input, s.stored);
    case Checking =>
      CheckingIsQuiet(w, s.log, step.input, s.stored);
      QuietAddsNothing(s.log, Next(w, s, step).log, h);
  }

  lemma {:induction false} UpdateKeepsHost(w: World, log: Log, input: Input, rec: Record)
    ensures UpdateStep(w, log, input, rec).value.rec.host == rec.host
  {
    hide CorrectTags, Attach, MachineInstances;
  }

  // ---- Runs ----

  function LostInRun(w: World, s: System, steps: seq<Step>, h: string, cause: Cause): nat
    decreases |steps|
  {
    if steps == [] then 0 else Lost(w, s, steps[0], h, cause) + LostInRun(w, Next(w, s, steps[0]), steps[1..], h, cause)
  }

  function StaleInRun(w: World, s: System, steps: seq<Step>, h: string): nat
    decreases |steps|
  {
    if steps == [] then 0 else Stale(w, s, steps[0], h) + StaleInRun(w, Next(w, s, steps[0]), steps[1..], h)
  }

  function AllLostInRun(w: World, s: System, steps: seq<Step>, h: string): nat {
    LostInRun(w, s, steps, h, ReleaseRefused) + LostInRun(w, s, steps, h, Unexpected)
      + LostInRun(w, s, steps, h, NotAttached)
    + LostInRun(w, s, steps, h, Overwritten) + LostInRun(w, s, steps, h, NotStored)
  }

  /** The ledger of every run, whatever AWS answers and whichever patches are rejected. */
  lemma {:induction false} Ledger(w: World, s: System, steps: seq<Step>, h: string)
    requires h != ""
    ensures var end := Run(w, s, steps);
      && s.log <= end.log
      && Held(s.stored, h) + (Allocations(end.log, h) - Allocations(s.log, h)) + StaleInRun(w, s, steps, h)
         == Held(end.stored, h) + (Released(end.log, h) - Released(s.log, h)) + AllLostInRun(w, s, steps, h)
    decreases |steps|
  {
    if steps != [] {
      StepLedger(w, s, steps[0], h);
      Ledger(w, Next(w, s, steps[0]), steps[1..], h);
    }
  }

  lemma {:induction false} PatchedRunsStoreEverything(w: World, s: System, steps: seq<Step>, h: string)
    requires AllPatched(steps)
    ensures LostInRun(w, s, steps, h, NotStored) == 0 && StaleInRun(w, s, steps, h) == 0
    decreases |steps|
  {
    if steps != [] {
      PatchedRunsStoreEverything(w, Next(w, s, steps[0]), steps[1..], h);
    }
  }

  /** With successful patches, and AWS naming each host once: a host that was ever allocated is exactly one of
      recorded in the status, released, or lost for one of four reasons; any other host is none of these. */
  lemma {:induction false} EveryHostIsAccountedFor(w: World, s: System, steps: seq<Step>, h: string)
    requires h != "" && s.log == [] && HostOf(s.stored) == ""
    requires AllPatched(steps)
    ensures var end := Run(w, s, steps);
      Allocations(end.log, h) ==
        Held(end.stored, h) + Released(end.log, h)
        + LostInRun(w, s, steps, h, ReleaseRefused) + LostInRun(w, s, steps, h, Unexpected)
        + LostInRun(w, s, steps, h, NotAttached) + LostInRun(w, s, steps, h, Overwritten)
  {
    Ledger(w, s, steps, h);
    PatchedRunsStoreEverything(w, s, steps, h);
  }

  /** After a successful launch: the step reports a load balancer failure exactly when attaching the instance fails,
      and then the record keeps neither the instance nor the host, and the host that was allocated is lost. */
  lemma {:induction false} LoadBalancerFailureForgets(w: World, s: System, step: Step)
    requires step.kind.Creating? && StartsInstance(w, s.log, step.input, s.stored)
    ensures var next := Next(w, s, step);
      var failure := Perform(w, s, step).value.failure;
      var launch := LaunchOf(w, s.log, step.input, s.stored).value;
      var attached := Attaches(w, s.log, step.input, s.stored);
      && Launches(next.log) == Launches(s.log) + 1
      && (failure == Some(LoadBalancersFailed) <==> !attached)
      && (failure == None <==> attached)
      && (!attached ==> next.stored == s.stored && !HasID(next.stored.instanceID))
      && (attached && step.patch.Patched? ==> next.stored.instanceID == launch.instance.id)
      && (launch.host != "" ==>
            && Allocations(next.log, launch.host) == Allocations(s.log, launch.host) + 1
            && Released(next.log, launch.host) == Released(s.log, launch.host)
            && (attached && step.patch.Patched? ==> HostOf(next.stored) == launch.host)
            && (HostOf(next.stored) != HostOf(s.stored) ==> attached && step.patch.Patched?))
  {
    hide CreateStep, Preflight, LaunchInstance, Attach, HostAllocatedBy;
    hide Allocations, Released, AllocateCalls, ReleaseCalls, Launches, TerminateCalls;
    var host := HostLaunched(w, s.log, step.input, s.stored);
    CreateOutcome(w, s.log, step.input, s.stored);
    CreateEffects(w, s.log, step.input, s.stored, if host != "" then host else "none");
  }

  /** A loss is a loss: but for an overwritten host, the step allocated the host, did not release it, and leaves the
      host that the record names as it was; an overwritten one makes room for the host just launched on, without
      being released. */
  lemma {:induction false} LosingMeans(w: World, s: System, step: Step, h: string, cause: Cause)
    requires h != "" && Loses(w, s, step, h, cause)
    ensures var next := Next(w, s, step);
      && (!cause.Overwritten? ==>
            && Allocations(next.log, h) == Allocations(s.log, h) + 1 && Released(next.log, h) == Released(s.log, h)
            && HostOf(next.stored) == HostOf(s.stored))
      && (cause.Overwritten? ==>
            && HostOf(s.stored) == h && Released(next.log, h) == Released(s.log, h)
            && HostOf(next.stored) == LaunchOf(w, s.log, step.input, s.stored).value.host)
  {
    hide CreateStep, Preflight, LaunchInstance, Attach, HostAllocatedBy;
    hide Allocations, Released, AllocateCalls, ReleaseCalls, Launches, TerminateCalls;
    CreateOutcome(w, s.log, step.input, s.stored);
    CreateEffects(w, s.log, step.input, s.stored, h);
    LaunchEnds(w, Preflight(w, s.log, step.input, s.stored).log, ClusterID(step.input.machine).GetOr(""),
      step.input.spec);
  }
}
