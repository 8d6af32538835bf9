/** How many instances are launched for one machine, over every run
    (pkg/actuators/machine/reconciler.go, pkg/actuators/machine/actuator.go). */
module LaunchAccounting {
  import opened Wrappers
  import opened Cloud
  import opened Launch
  import opened Lookup
  import opened Steps
  import opened Runs
  import opened Effects
  import opened LaunchEffects
  import opened StepEffects
  import opened Quietness

  /** An update step after which the record no longer names an instance. */
  function Clears(w: World, s: System, step: Step): nat {
    One(step.kind.Updating? && HasID(s.stored.instanceID) && !HasID(Next(w, s, step).stored.instanceID))
  }

  /** An update step that records an instance for a machine that had none. */
  function Adopts(w: World, s: System, step: Step): nat {
    One(step.kind.Updating? && !HasID(s.stored.instanceID) && HasID(Next(w, s, step).stored.instanceID))
  }

  /** A create step whose launch started something, told from what AWS answered and from the patch, that does not
      get into the stored record: the reservation is not of one instance, attaching the instance fails, a patch is
      rejected, or the instance comes without an ID. */
  predicate Misses(w: World, s: System, step: Step) {
    && step.kind.Creating? && ReachesLaunch(w, s.log, step.input, s.stored)
    && StartedAny(LaunchOf(w, s.log, step.input, s.stored).log)
    && !(&& StartsInstance(w, s.log, step.input, s.stored)
         && Attaches(w, s.log, step.input, s.stored)
         && step.patch.Patched?
         && HasID(LaunchOf(w, s.log, step.input, s.stored).value.instance.id))
  }

  function Unrecorded(w: World, s: System, step: Step): nat {
    One(Misses(w, s, step))
  }

  /** A step launches without the stored record naming an instance afterwards exactly when it misses its launch. */
  lemma {:induction false} UnrecordedExactlyWhen(w: World, s: System, step: Step)
    ensures var next := Next(w, s, step);
      Misses(w, s, step) <==> Launches(next.log) > Launches(s.log) && !HasID(next.stored.instanceID)
  {
    hide CreateStep, DeleteStep, UpdateStep, ExistsStep, Launches, Attach, Preflight, LaunchInstance;
    StepAccounting(w, s, step);
    if step.kind.Creating? {
      CreateEffects(w, s.log, step.input, s.stored, "any");
    }
  }

  /** For a launch that succeeds, that is: attaching fails, a patch is rejected, or the instance has no ID. */
  lemma {:induction false} SuccessfulLaunchIsMissedExactlyWhen(w: World, s: System, step: Step)
    requires step.kind.Creating? && StartsInstance(w, s.log, step.input, s.stored)
    ensures var launch := LaunchOf(w, s.log, step.input, s.stored);
      var next := Next(w, s, step);
      && Launches(next.log) == Launches(s.log) + 1
      && (!HasID(next.stored.instanceID) <==>
            || !Attach(w, launch.log, step.input.spec.loadBalancers, launch.value.instance).value
            || !step.patch.Patched?
            || !HasID(launch.value.instance.id))
  {
    hide CreateStep, Launches, Attach, Preflight, LaunchInstance;
    CreateEffects(w, s.log, step.input, s.stored, "any");
    CreateOutcome(w, s.log, step.input, s.stored);
  }

  /** One step: launches and adoptions are exactly what fills the record, clears it or misses it. */
  lemma StepAccounting(w: World, s: System, step: Step)
    ensures var next := Next(w, s, step);
      && s.log <= next.log
      && 0 <= Launches(next.log) - Launches(s.log) <= One(step.kind.Creating? && !HasID(s.stored.instanceID))
      && Launches(next.log) - Launches(s.log) + Adopts(w, s, step)
         == One(HasID(next.stored.instanceID)) - One(HasID(s.stored.instanceID)) + Clears(w, s, step)
           + Unrecorded(w, s, step)
  {
    hide CreateStep, DeleteStep, UpdateStep, ExistsStep, Launches, Preflight, LaunchInstance, Attach;
    match step.kind
    case Creating =>
      CreateEffects(w, s.log, step.input, s.stored, "any");
      CreateOutcome(w, s.log, step.input, s.stored);
    case Deleting =>
      DeleteEffects(w, s.log, step.input, s.stored, "any");
    case Updating =>
      UpdatingIsQuiet(w, s.log, step.input, s.stored);
      QuietAddsNothing(s.log, Next(w, s, step).log, "any");
    case Checking =>
      CheckingIsQuiet(w, s.log, step.input, s.stored);
      QuietAddsNothing(s.log, Next(w, s, step).log, "any");
  }

  /** update clears the recorded ID exactly when its patch goes through and either the lookup found nothing for a
      machine that is not just about to appear, or the instance it settles on was reported with an empty ID. */
  lemma {:induction false} ClearsExactlyWhen(w: World, s: System, step: Step)
    ensures var found := MachineInstances(w, s.log, step.input.machine, s.stored.instanceID);
      Clears(w, s, step) == 1 <==>
      && step.kind.Updating? && HasID(s.stored.instanceID) && step.patch.Patched? && ValidMachine(step.input.machine)
      && found.value.Some?
      && if found.value.value == [] then !MayAppear(s.stored, step.input)
         else SettlesOnNoID(w, found.log, step.input, found.value.value)
  {
    hide MachineInstances, UpdateFound, SettlesOnNoID, CreateStep, DeleteStep, ExistsStep;
    var found := MachineInstances(w, s.log, step.input.machine, s.stored.instanceID);
    if found.value.Some? && found.value.value != [] && HasID(s.stored.instanceID) {
      SettlingOnNoID(w, found.log, step.input, s.stored, found.value.value);
    }
  }

  predicate SettlesOnNoID(w: World, log: Log, input: Input, found: seq<Instance>)
    requires found != []
  {
    GetsToStatus(w, log, input, found) && !HasID(Settled(found).id)
  }

  lemma SettlingOnNoID(w: World, log: Log, input: Input, rec: Record, found: seq<Instance>)
    requires found != [] && HasID(rec.instanceID)
    ensures HasID(UpdateFound(w, log, input, rec, found).value.rec.instanceID) <==> !SettlesOnNoID(w, log, input, found)
  {
    hide UpdateFound, GetsToStatus, Settled;
    FoundRecordsID(w, log, input, rec, found);
  }

  // ---- Runs ----

  function Total(w: World, s: System, steps: seq<Step>, count: (World, System, Step) -> nat): nat
    decreases |steps|
  {
    if steps == [] then 0 else count(w, s, steps[0]) + Total(w, Next(w, s, steps[0]), steps[1..], count)
  }

  /** Launch accounting over every run. */
  lemma {:induction false} Accounting(w: World, s: System, steps: seq<Step>)
    ensures var end := Run(w, s, steps);
      && s.log <= end.log
      && Launches(end.log) - Launches(s.log) + Total(w, s, steps, Adopts)
         == One(HasID(end.stored.instanceID)) - One(HasID(s.stored.instanceID))
            + Total(w, s, steps, Clears) + Total(w, s, steps, Unrecorded)
    decreases |steps|
  {
    hide Next, Launches, Clears, Adopts, Unrecorded;
    if steps != [] {
      StepAccounting(w, s, steps[0]);
      Accounting(w, Next(w, s, steps[0]), steps[1..]);
    }
  }

  /** Every further launch needs a cleared ID or a launch that was not recorded. */
  lemma {:induction false} LaunchBound(w: World, s: System, steps: seq<Step>)
    requires s.log == []
    ensures Launches(Run(w, s, steps).log) <= 1 + Total(w, s, steps, Clears) + Total(w, s, steps, Unrecorded)
  {
    Accounting(w, s, steps);
  }

  // ---- When lookups can be relied on ----

  /** Once something was launched, a lookup by the machine's tags succeeds and finds an instance. */
  ghost predicate StaysVisible(w: World, name: string, clusterID: string) {
    forall log: Log | Launches(log) > 0 ::
      var reply := w.describeInstances(log, ByTags(name, clusterID));
      reply.Reservations? && Allowed(reply.list, EXISTING_STATES) != []
  }

  predicate SameMachine(steps: seq<Step>, name: string, clusterID: string) {
    forall i :: 0 <= i < |steps| ==>
      steps[i].input.machine.name == name && ClusterID(steps[i].input.machine) == Some(clusterID)
  }

  lemma VisibleIsFound(w: World, log: Log, m: Machine, instanceID: Option<string>, clusterID: string)
    requires StaysVisible(w, m.name, clusterID) && ClusterID(m) == Some(clusterID) && Launches(log) > 0
    ensures var found := MachineInstances(w, log, m, instanceID).value;
      found.Some? && found.value != []
  {
    hide Allowed;
    if HasID(instanceID) {
      var e := DescribeInstances(ByID(instanceID.value), w.describeInstances(log, ByID(instanceID.value)));
      AddedByEvent(log, e, "");
      assert Launches(log + [e]) > 0;
    }
  }

  /** Then every run launches at most one instance, whatever happens to the patches. */
  lemma {:induction false} AtMostOneLaunch(w: World, s: System, steps: seq<Step>, name: string, clusterID: string)
    requires StaysVisible(w, name, clusterID) && SameMachine(steps, name, clusterID)
    ensures Launches(Run(w, s, steps).log) <= if Launches(s.log) > 0 then Launches(s.log) else 1
    decreases |steps|
  {
    hide Next, Launches, StaysVisible, ClusterID;
    if steps != [] {
      StepAccounting(w, s, steps[0]);
      if Launches(s.log) > 0 {
        NoLaunchWhenVisible(w, s, steps[0], clusterID);
      }
      AtMostOneLaunch(w, Next(w, s, steps[0]), steps[1..], name, clusterID);
    }
  }

  lemma {:induction false} NoLaunchWhenVisible(w: World, s: System, step: Step, clusterID: string)
    requires StaysVisible(w, step.input.machine.name, clusterID) && ClusterID(step.input.machine) == Some(clusterID)
    requires Launches(s.log) > 0
    ensures Launches(Next(w, s, step).log) == Launches(s.log)
  {
    hide MachineInstances, LaunchInstance, UpdateStep, DeleteStep, ExistsStep, Launches;
    StepAccounting(w, s, step);
    if step.kind.Creating? {
      VisibleIsFound(w, s.log, step.input.machine, s.stored.instanceID, clusterID);
      var found := MachineInstances(w, s.log, step.input.machine, s.stored.instanceID);
      assert Next(w, s, step).log == found.log;
      LookingUpIsQuiet(w, s.log, step.input.machine, s.stored.instanceID);
      QuietAddsNothing(s.log, found.log, "any");
    }
  }

  /** From some point on, whichever ID is recorded, the first instance found for the machine is terminated. */
  ghost predicate StaysTerminated(w: World, from: Log, m: Machine) {
    forall log: Log, id: Option<string> | from <= log ::
      var found := MachineInstances(w, log, m, id).value;
      found.Some? && found.value != [] && IsTerminated(found.value[0])
  }

  /** Then create and exists steps change nothing any more: they launch and terminate nothing and keep the record. */
  lemma {:induction false} TerminatedMachineIsLeftAlone(w: World, s: System, steps: seq<Step>, from: Log, m: Machine)
    requires from <= s.log && StaysTerminated(w, from, m)
    requires forall i :: 0 <= i < |steps| ==>
      steps[i].input.machine == m && (steps[i].kind.Creating? || steps[i].kind.Checking?)
    ensures var end := Run(w, s, steps);
      && end.stored == s.stored && Quiet(s.log, end.log)
      && Launches(end.log) == Launches(s.log) && TerminateCalls(end.log) == TerminateCalls(s.log)
    decreases |steps|
  {
    if steps != [] {
      var next := Next(w, s, steps[0]);
      TerminatedStep(w, s, steps[0], from);
      TerminatedMachineIsLeftAlone(w, next, steps[1..], from, m);
      QuietTwice(s.log, next.log, Run(w, next, steps[1..]).log);
    }
    QuietAddsNothing(s.log, Run(w, s, steps).log, "any");
  }

  lemma TerminatedStep(w: World, s: System, step: Step, from: Log)
    requires from <= s.log && StaysTerminated(w, from, step.input.machine)
    requires step.kind.Creating? || step.kind.Checking?
    ensures Next(w, s, step).stored == s.stored && Quiet(s.log, Next(w, s, step).log)
  {
    hide MachineInstances, LaunchInstance;
    LookingUpIsQuiet(w, s.log, step.input.machine, s.stored.instanceID);
    var found := MachineInstances(w, s.log, step.input.machine, s.stored.instanceID);
    assert found.value.Some? && found.value.value != [] && IsTerminated(found.value.value[0]);
  }
}
