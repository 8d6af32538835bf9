/** Every termination and every host release in the log of a run, traced to the step that asked for it
    (pkg/actuators/machine/reconciler.go, pkg/actuators/machine/instances.go). */
module RunOrder {
  import opened Wrappers
  import opened Cloud
  import opened ProviderSpec
  import opened Launch
  import opened Lookup
  import opened Steps
  import opened Runs
  import opened Effects
  import opened LaunchEffects
  import opened Quietness
  import opened DeleteOrder
  import opened LaunchAccounting

  /** The IDs are those of the stopped instances of an answer: of every one, and of no other. */
  predicate NamesStopped(ids: seq<string>, reservations: seq<seq<Instance>>) {
    && (forall i :: i in Flat(reservations) && IsStopped(i) ==> i.id.value in ids)
    && (forall id :: id in ids ==> exists i :: i in Flat(reservations) && IsStopped(i) && i.id == Some(id))
  }

  lemma {:induction false} StoppedAreNamed(reservations: seq<seq<Instance>>)
    ensures NamesStopped(IDs(Allowed(reservations, STOPPED_STATES)), reservations)
  {
    var stopped := Allowed(reservations, STOPPED_STATES);
    AllowedFlat(reservations, STOPPED_STATES);
    forall i ensures i in stopped <==> i in Flat(reservations) && IsStopped(i) {
      AllowedOfMeaning(Flat(reservations), STOPPED_STATES, i);
      StatesMeaning(i);
    }
    assert forall i :: i in stopped ==> HasAllowedState(i, STOPPED_STATES) by {
      forall i | i in stopped ensures HasAllowedState(i, STOPPED_STATES) {
        StatesMeaning(i);
      }
    }
    IDsMeaning(stopped, STOPPED_STATES);
    var ids := IDs(stopped);
    hide IDs, Allowed, Flat;
    forall i | i in stopped ensures i.id.value in ids {
      var k :| 0 <= k < |stopped| && stopped[k] == i;
      assert ids[k] in ids;
    }
    forall id | id in ids ensures exists i :: i in Flat(reservations) && IsStopped(i) && i.id == Some(id) {
      var k :| 0 <= k < |ids| && ids[k] == id;
      assert stopped[k] in stopped;
    }
  }

  /** A create step terminates exactly the stopped instances that the lookup by the machine's tags right before found,
      and only for a machine that is known not to be a master. */
  predicate TerminatedByCreate(s: System, step: Step, log: Log, k: nat) {
    && |s.log| < k < |log| && log[k].TerminateInstances?
    && step.kind.Creating? && step.input.isMaster == Ok(false)
    && log[k - 1].DescribeInstances? && log[k - 1].found.Reservations?
    && log[k - 1].query.ByTags? && log[k - 1].query.machineName == step.input.machine.name
    && BelongsTo(step.input.machine, log[k - 1].query.clusterID)
    && NamesStopped(log[k].ids, log[k - 1].found.list)
  }

  /** A create step releases only a host that it has itself allocated before. */
  predicate ReleasedByCreate(s: System, step: Step, log: Log, k: nat) {
    && k < |log| && log[k].ReleaseHosts? && step.kind.Creating?
    && exists j :: |s.log| <= j < k && Allocates(log[j], log[k].host)
  }

  lemma PreflightOrder(w: World, s: System, step: Step)
    requires step.kind.Creating?
    ensures var o := Preflight(w, s.log, step.input, s.stored);
      && s.log <= o.log
      && forall k :: |s.log| <= k < |o.log| ==>
           !o.log[k].ReleaseHosts? && (o.log[k].TerminateInstances? ==> TerminatedByCreate(s, step, o.log, k))
  {
    hide MachineInstances, Allowed, IDs;
    var found := MachineInstances(w, s.log, step.input.machine, s.stored.instanceID);
    LookingUpIsQuiet(w, s.log, step.input.machine, s.stored.instanceID);
    var m := step.input.machine;
    var stopped := LookupByTags(w, found.log, m, STOPPED_STATES);
    var o := Preflight(w, s.log, step.input, s.stored);
    if stopped.value.Some? && o.log != found.log && o.log != stopped.log {
      var ids := IDs(stopped.value.value);
      assert o.log == stopped.log + [TerminateInstances(ids, w.terminateInstances(stopped.log, ids))];
      StoppedAreNamed(stopped.log[|found.log|].found.list);
    }
  }

  lemma LaunchOnOrder(w: World, log: Log, clusterID: string, spec: Spec, host: string)
    ensures var o := LaunchOn(w, log, clusterID, spec, host);
      && log <= o.log
      && forall k :: |log| <= k < |o.log| ==>
           !o.log[k].TerminateInstances? && (o.log[k].ReleaseHosts? ==> host != "" && o.log[k].host == host)
  {
  }

  lemma LaunchOrder(w: World, log: Log, clusterID: string, spec: Spec)
    ensures var o := LaunchInstance(w, log, clusterID, spec);
      && log <= o.log
      && forall k :: |log| <= k < |o.log| ==>
           !o.log[k].TerminateInstances?
           && (o.log[k].ReleaseHosts? ==> exists j :: |log| <= j < k && Allocates(o.log[j], o.log[k].host))
  {
    hide LaunchOn;
    var o := LaunchInstance(w, log, clusterID, spec);
    var next := AfterAllocation(w, log, spec);
    LaunchSplits(w, log, clusterID, spec);
    assert log <= next && forall k :: |log| <= k < |next| ==> !next[k].TerminateInstances? && !next[k].ReleaseHosts?;
    var host := HostAllocatedBy(w, log, spec).GetOr("");
    LaunchOnOrder(w, next, clusterID, spec, host);
    if HostAllocatedBy(w, log, spec).Some? {
      assert Allocates(next[|next| - 1], host);
    }
    forall k | |log| <= k < |o.log| && o.log[k].ReleaseHosts?
      ensures exists j :: |log| <= j < k && Allocates(o.log[j], o.log[k].host)
    {
      assert k >= |next| && o.log[|next| - 1] == next[|next| - 1];
    }
  }

  lemma CreateStepOrder(w: World, s: System, step: Step)
    requires step.kind.Creating?
    ensures var o := Perform(w, s, step);
      && s.log <= o.log
      && forall k :: |s.log| <= k < |o.log| ==>
           && (o.log[k].TerminateInstances? ==> TerminatedByCreate(s, step, o.log, k))
           && (o.log[k].ReleaseHosts? ==> ReleasedByCreate(s, step, o.log, k))
  {
    hide Preflight, LaunchInstance, AfterLaunch, Allowed, IDs;
    var pre := Preflight(w, s.log, step.input, s.stored);
    PreflightOrder(w, s, step);
    if pre.value.None? {
      var clusterID := ClusterID(step.input.machine).GetOr("");
      var launch := LaunchInstance(w, pre.log, clusterID, step.input.spec);
      LaunchOrder(w, pre.log, clusterID, step.input.spec);
      var o := Perform(w, s, step);
      if launch.value.Launched? {
        RecordingIsQuiet(w, launch.log, step.input, s.stored, launch.value.instance, launch.value.host);
      }
      assert Quiet(launch.log, o.log);
      forall k | |s.log| <= k < |o.log| && !Harmless(o.log[k])
        ensures o.log[k].TerminateInstances? ==> TerminatedByCreate(s, step, o.log, k)
        ensures o.log[k].ReleaseHosts? ==> ReleasedByCreate(s, step, o.log, k)
      {
        assert o.log[k] == launch.log[k];
        if k < |pre.log| {
          assert o.log[k] == pre.log[k] && (k > 0 ==> o.log[k - 1] == pre.log[k - 1]);
        } else if o.log[k].ReleaseHosts? {
          var j :| |pre.log| <= j < k && Allocates(launch.log[j], launch.log[k].host);
          assert o.log[j] == launch.log[j];
        }
      }
    }
  }

  /** create terminates something exactly when its own lookup failed or found nothing, no ID is recorded, the machine is
      valid and no master, and the lookup for stopped instances, made right after, finds some. */
  lemma CreateTerminatesExactlyWhen(w: World, s: System, step: Step)
    requires step.kind.Creating?
    ensures var found := MachineInstances(w, s.log, step.input.machine, s.stored.instanceID);
      var stopped := LookupByTags(w, found.log, step.input.machine, STOPPED_STATES).value;
      TerminateCalls(Perform(w, s, step).log) != TerminateCalls(s.log) <==>
        && (found.value.None? || found.value.value == [])
        && !HasID(s.stored.instanceID) && ValidMachine(step.input.machine) && step.input.isMaster == Ok(false)
        && stopped.Some? && stopped.value != []
  {
    hide MachineInstances, LaunchInstance, AfterLaunch, Allowed, IDs;
    hide Allocations, Released, AllocateCalls, ReleaseCalls, Launches, TerminateCalls;
    var found := MachineInstances(w, s.log, step.input.machine, s.stored.instanceID);
    LookingUpIsQuiet(w, s.log, step.input.machine, s.stored.instanceID);
    QuietAddsNothing(s.log, found.log, "any");
    var stopped := LookupByTags(w, found.log, step.input.machine, STOPPED_STATES);
    assert Quiet(found.log, stopped.log);
    QuietAddsNothing(found.log, stopped.log, "any");
    if stopped.value.Some? {
      var ids := IDs(stopped.value.value);
      AddedByEvent(stopped.log, TerminateInstances(ids, w.terminateInstances(stopped.log, ids)), "any");
    }
    AfterPreflightTerminatesNothing(w, s, step);
  }

  lemma {:induction false} AfterPreflightTerminatesNothing(w: World, s: System, step: Step)
    requires step.kind.Creating?
    ensures TerminateCalls(Perform(w, s, step).log) == TerminateCalls(Preflight(w, s.log, step.input, s.stored).log)
  {
    hide Preflight, LaunchInstance, AfterLaunch, TerminateCalls;
    var pre := Preflight(w, s.log, step.input, s.stored);
    if pre.value.None? {
      var clusterID := ClusterID(step.input.machine).GetOr("");
      var launch := LaunchInstance(w, pre.log, clusterID, step.input.spec);
      LaunchLedger(w, pre.log, clusterID, step.input.spec, "any");
      if launch.value.Launched? {
        var o := AfterLaunch(w, launch.log, step.input, s.stored, launch.value.instance, launch.value.host);
        RecordingIsQuiet(w, launch.log, step.input, s.stored, launch.value.instance, launch.value.host);
        QuietAddsNothing(launch.log, o.log, "any");
      }
    }
  }

  /** So when the lookup by tags answers the same twice in a row, create terminates nothing. */
  lemma SteadyLookupsTerminateNothing(w: World, s: System, step: Step)
    requires step.kind.Creating? && ClusterID(step.input.machine).Some?
    requires var query := ByTags(step.input.machine.name, ClusterID(step.input.machine).value);
      var reply := w.describeInstances(s.log, query);
      w.describeInstances(s.log + [DescribeInstances(query, reply)], query) == reply
    ensures TerminateCalls(Perform(w, s, step).log) == TerminateCalls(s.log)
  {
    hide Perform, TerminateCalls, Allowed;
    CreateTerminatesExactlyWhen(w, s, step);
    var reply := w.describeInstances(s.log, ByTags(step.input.machine.name, ClusterID(step.input.machine).value));
    if reply.Reservations? {
      var stopped := Allowed(reply.list, STOPPED_STATES);
      if stopped != [] {
        AllowedMeaning(reply.list, STOPPED_STATES, stopped[0]);
        AllowedMeaning(reply.list, EXISTING_STATES, stopped[0]);
      }
    }
  }

  // ---- Runs ----

  /** The state before step i of a run. */
  function Before(w: World, s: System, steps: seq<Step>, i: nat): System
    requires i <= |steps|
  {
    Run(w, s, steps[..i])
  }

  /** Position k of the log was written by step i, whose own log is part of the run's. */
  predicate WrittenBy(w: World, s: System, steps: seq<Step>, i: nat, k: nat) {
    && i < |steps|
    && |Before(w, s, steps, i).log| <= k < |Perform(w, Before(w, s, steps, i), steps[i]).log|
    && Perform(w, Before(w, s, steps, i), steps[i]).log <= Run(w, s, steps).log
  }

  lemma {:induction false} RunGrows(w: World, s: System, steps: seq<Step>)
    ensures s.log <= Run(w, s, steps).log
    decreases |steps|
  {
    hide Next;
    if steps != [] {
      StepAccounting(w, s, steps[0]);
      RunGrows(w, Next(w, s, steps[0]), steps[1..]);
    }
  }

  /** Every position a run adds to the log was written by one of its steps. */
  lemma {:induction false} EveryRequestHasItsStep(w: World, s: System, steps: seq<Step>, k: nat) returns (i: nat)
    requires |s.log| <= k < |Run(w, s, steps).log|
    ensures WrittenBy(w, s, steps, i, k)
    decreases |steps|
  {
    hide Perform;
    var next := Next(w, s, steps[0]);
    RunGrows(w, next, steps[1..]);
    if k < |next.log| {
      i := 0;
    } else {
      var rest := steps[1..];
      var j := EveryRequestHasItsStep(w, next, rest, k);
      i := j + 1;
      assert steps[..i][0] == steps[0] && steps[..i][1..] == rest[..j];
    }
  }

  /** In the log of any run, every terminate request was made either by a delete step, after deregistering every found
      instance, or by a create step that removed stopped instances. */
  lemma {:induction false} TerminationsAreOrdered(w: World, s: System, steps: seq<Step>, k: nat) returns (i: nat)
    requires |s.log| <= k < |Run(w, s, steps).log| && Run(w, s, steps).log[k].TerminateInstances?
    ensures WrittenBy(w, s, steps, i, k)
    ensures var before := Before(w, s, steps, i);
      var log := Perform(w, before, steps[i]).log;
      TerminatedByDelete(w, before, steps[i], log, k) || TerminatedByCreate(before, steps[i], log, k)
  {
    hide CreateStep, UpdateStep, DeleteStep, ExistsStep, TerminatedByDelete, TerminatedByCreate, Run;
    i := EveryRequestHasItsStep(w, s, steps, k);
    StepKindOrder(w, Before(w, s, steps, i), steps[i], k);
  }

  /** In the log of any run, every release request was made either by a delete step for the recorded host of a
      terminated instance, with no terminate request in that step, or by a create step for a host it had just
      allocated. */
  lemma {:induction false} ReleasesAreOrdered(w: World, s: System, steps: seq<Step>, k: nat) returns (i: nat)
    requires |s.log| <= k < |Run(w, s, steps).log| && Run(w, s, steps).log[k].ReleaseHosts?
    ensures WrittenBy(w, s, steps, i, k)
    ensures var before := Before(w, s, steps, i);
      var log := Perform(w, before, steps[i]).log;
      ReleasedByDelete(w, before, steps[i], log, k) || ReleasedByCreate(before, steps[i], log, k)
  {
    hide CreateStep, UpdateStep, DeleteStep, ExistsStep, ReleasedByDelete, ReleasedByCreate, Run;
    i := EveryRequestHasItsStep(w, s, steps, k);
    StepKindOrder(w, Before(w, s, steps, i), steps[i], k);
  }

  lemma StepKindOrder(w: World, s: System, step: Step, k: nat)
    requires |s.log| <= k < |Perform(w, s, step).log|
    ensures var log := Perform(w, s, step).log;
      && (log[k].TerminateInstances? ==> TerminatedByDelete(w, s, step, log, k) || TerminatedByCreate(s, step, log, k))
      && (log[k].ReleaseHosts? ==> ReleasedByDelete(w, s, step, log, k) || ReleasedByCreate(s, step, log, k))
  {
    hide CreateStep, UpdateStep, DeleteStep, ExistsStep, TerminatedByDelete, TerminatedByCreate, ReleasedByDelete,
         ReleasedByCreate;
    match step.kind
    case Creating => CreateStepOrder(w, s, step);
    case Deleting => DeleteStepOrder(w, s, step);
    case Updating =>
      UpdatingIsQuiet(w, s.log, step.input, s.stored);
      assert Harmless(Perform(w, s, step).log[k]);
    case Checking =>
      CheckingIsQuiet(w, s.log, step.input, s.stored);
      assert Harmless(Perform(w, s, step).log[k]);
  }
}
