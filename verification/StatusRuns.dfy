/** The conditions in the stored record, over every run
    (pkg/actuators/machine/reconciler.go, pkg/actuators/machine/machine_scope.go). */
module StatusRuns {
  import opened Wrappers
  import opened Cloud
  import opened Conditions
  import InstanceOrder
  import opened Launch
  import opened Lookup
  import opened Steps
  import opened Runs
  import opened StepEffects

  /** Kinds are unique, and an entry for the creation of the machine comes from one of the two constructors. */
  predicate GoodConditions(conditions: seq<Condition>) {
    && UniqueKinds(conditions)
    && (Find(conditions, MachineCreation).Some? ==> Constructed(Find(conditions, MachineCreation).value))
  }

  /** The list says how the creation of the machine went. */
  predicate Says(conditions: seq<Condition>, c: Condition) {
    && Find(conditions, c.kind).Some?
    && var entry := Find(conditions, c.kind).value;
       entry.status == c.status && entry.reason == c.reason && entry.message == c.message
  }

  // ---- What a step sets, told from what AWS and the API server answer ----

  /** update on found instances gets to the status, and the addresses of the chosen instance can be computed. */
  predicate CompletesStatus(w: World, log: Log, input: Input, found: seq<Instance>)
    requires found != []
  {
    && GetsToStatus(w, log, input, found)
    && w.nodeAddresses(CorrectSettled(w, log, input, found).log, Settled(found)).Ok?
  }

  /** The condition that a create step sets, if it sets one. */
  function SetByCreate(w: World, log: Log, input: Input, rec: Record): Option<Condition> {
    if !ReachesLaunch(w, log, input, rec) then None
    else
      var launch := LaunchOf(w, log, input, rec);
      match launch.value
      case NotLaunched(e) => Some(ConditionFailed(input.errorText(e)))
      case Launched(instance, _) =>
        var attached := Attach(w, launch.log, input.spec.loadBalancers, instance);
        if attached.value && w.nodeAddresses(attached.log, instance).Ok? then Some(ConditionSuccess()) else None
  }

  /** The condition that an update step sets, if it sets one. */
  function SetByUpdate(w: World, log: Log, input: Input, rec: Record): Option<Condition> {
    var found := MachineInstances(w, log, input.machine, rec.instanceID);
    if !ValidMachine(input.machine) || found.value.None? then None
    else if found.value.value == [] then if MayAppear(rec, input) then None else Some(ConditionSuccess())
    else if CompletesStatus(w, found.log, input, found.value.value) then Some(ConditionSuccess())
    else None
  }

  /** The condition that a step gets into the stored record, if any. */
  function Sets(w: World, s: System, step: Step): Option<Condition> {
    if !step.patch.Patched? then None
    else match step.kind
      case Creating => SetByCreate(w, s.log, step.input, s.stored)
      case Updating => SetByUpdate(w, s.log, step.input, s.stored)
      case Deleting => None
      case Checking => None
  }

  lemma CreateSets(w: World, log: Log, input: Input, rec: Record)
    ensures CreateStep(w, log, input, rec).value.rec.conditions ==
      match SetByCreate(w, log, input, rec)
      case None => rec.conditions
      case Some(c) => WithCondition(c, rec.conditions, input.now)
  {
    hide Preflight, LaunchInstance, Attach, WithCondition;
  }

  lemma FoundSets(w: World, log: Log, input: Input, rec: Record, found: seq<Instance>)
    requires found != []
    ensures UpdateFound(w, log, input, rec, found).value.rec.conditions ==
      if CompletesStatus(w, log, input, found) then WithCondition(ConditionSuccess(), rec.conditions, input.now)
      else rec.conditions
  {
    hide Attach, CorrectTags, InstanceOrder.Sorted, WithCondition;
    InstanceOrder.SortedMeaning(found);
  }

  lemma UpdateSets(w: World, log: Log, input: Input, rec: Record)
    ensures UpdateStep(w, log, input, rec).value.rec.conditions ==
      match SetByUpdate(w, log, input, rec)
      case None => rec.conditions
      case Some(c) => WithCondition(c, rec.conditions, input.now)
  {
    hide MachineInstances, UpdateFound, CompletesStatus, WithCondition;
    var found := MachineInstances(w, log, input.machine, rec.instanceID);
    if found.value.Some? && found.value.value != [] {
      FoundSets(w, found.log, input, rec, found.value.value);
    }
  }

  lemma {:induction false} StepSets(w: World, s: System, step: Step)
    ensures Next(w, s, step).stored.conditions ==
      match Sets(w, s, step)
      case None => s.stored.conditions
      case Some(c) => WithCondition(c, s.stored.conditions, step.input.now)
    ensures Sets(w, s, step).Some? ==> Constructed(Sets(w, s, step).value)
  {
    hide CreateStep, UpdateStep, ExistsStep, MachineInstances, CompletesStatus, ReachesLaunch, LaunchOf, WithCondition;
    CreateSets(w, s.log, step.input, s.stored);
    UpdateSets(w, s.log, step.input, s.stored);
  }

  lemma OneCallKeepsGood(c: Condition, conditions: seq<Condition>, now: int, other: Conditions.Kind)
    requires GoodConditions(conditions) && Constructed(c)
    ensures var after := WithCondition(c, conditions, now);
      && GoodConditions(after) && Says(after, c)
      && (other != MachineCreation ==> Find(after, other) == Find(conditions, other))
  {
    var calls := [Call(c, now)];
    assert calls[..0] == [];
    StatusIsThatOfTheLastCall(conditions, calls, other);
    assert AfterCalls(conditions, calls) == WithCondition(c, conditions, now);
  }

  // ---- Runs ----

  /** The last condition that a run gets into the stored record. */
  function LastSet(w: World, s: System, steps: seq<Step>): Option<Condition>
    decreases |steps|
  {
    if steps == [] then None
    else
      var later := LastSet(w, Next(w, s, steps[0]), steps[1..]);
      if later.Some? then later else Sets(w, s, steps[0])
  }

  /** Over every run from good conditions, with any patches rejected: they stay good, other kinds are untouched, and
      the stored status of the creation is that of the last step that set one, or what it was if none did. */
  lemma {:induction false} StoredStatusIsTheLastSet(w: World, s: System, steps: seq<Step>, other: Conditions.Kind)
    requires GoodConditions(s.stored.conditions)
    ensures var end := Run(w, s, steps).stored.conditions;
      && GoodConditions(end)
      && (other != MachineCreation ==> Find(end, other) == Find(s.stored.conditions, other))
      && (match LastSet(w, s, steps)
          case None => end == s.stored.conditions
          case Some(c) => Constructed(c) && Says(end, c))
    decreases |steps|
  {
    hide Next, Sets, GoodConditions, Says, Constructed, Find, WithCondition;
    if steps != [] {
      StepSets(w, s, steps[0]);
      if Sets(w, s, steps[0]).Some? {
        OneCallKeepsGood(Sets(w, s, steps[0]).value, s.stored.conditions, steps[0].input.now, other);
      }
      StoredStatusIsTheLastSet(w, Next(w, s, steps[0]), steps[1..], other);
    }
  }

  /** A patched create step whose launch fails stores that it failed, and why. */
  lemma {:induction false} FailedLaunchIsStored(w: World, s: System, step: Step)
    requires GoodConditions(s.stored.conditions) && step.kind.Creating? && step.patch.Patched?
    requires ReachesLaunch(w, s.log, step.input, s.stored) && !StartsInstance(w, s.log, step.input, s.stored)
    ensures var conditions := Next(w, s, step).stored.conditions;
      var error := LaunchOf(w, s.log, step.input, s.stored).value.error;
      && Find(conditions, MachineCreation).Some?
      && var entry := Find(conditions, MachineCreation).value;
         entry.status == False && entry.reason == Failed && entry.message == step.input.errorText(error)
  {
    hide Next, Preflight, LaunchInstance, WithCondition, Find;
    StepSets(w, s, step);
    OneCallKeepsGood(Sets(w, s, step).value, s.stored.conditions, step.input.now, MachineCreation);
  }

  /** A patched step that sets a condition without a failed launch stores that the machine was created. */
  lemma {:induction false} SuccessIsStored(w: World, s: System, step: Step)
    requires GoodConditions(s.stored.conditions) && Sets(w, s, step).Some?
    requires step.kind.Creating? ==> StartsInstance(w, s.log, step.input, s.stored)
    ensures var conditions := Next(w, s, step).stored.conditions;
      && Find(conditions, MachineCreation).Some?
      && var entry := Find(conditions, MachineCreation).value;
         entry.status == True && entry.reason == Succeeded && entry.message == CREATED_MESSAGE
  {
    StepSets(w, s, step);
    var c := Sets(w, s, step).value;
    assert c == ConditionSuccess();
    hide Next, Preflight, LaunchInstance, WithCondition, Find, Sets;
    OneCallKeepsGood(c, s.stored.conditions, step.input.now, MachineCreation);
  }
}
