/** What each reconcile operation answers and records, told from what AWS replied
    (pkg/actuators/machine/reconciler.go, pkg/actuators/machine/machine_scope.go). */
module StepAnswers {
  import opened Wrappers
  import opened Tags
  import opened TagCorrection
  import opened Cloud
  import InstanceOrder
  import opened ProviderSpec
  import opened Launch
  import opened LoadBalancers
  import opened LoadBalancerResults
  import opened Lookup
  import opened Steps
  import opened Runs
  import opened Quietness
  import opened StepEffects

  const TWENTY_SECONDS := 20_000_000_000
  const THREE_MINUTES := 180_000_000_000

  /** An instance ID is recorded, no address was ever seen, and the record is younger than twenty seconds. */
  predicate Waits(rec: Record, input: Input) {
    && rec.instanceID.Some? && rec.instanceID.value != ""
    && rec.addresses == []
    && (input.lastUpdated.None? || input.lastUpdated.value + TWENTY_SECONDS > input.now)
  }

  // ---- exists ----

  lemma ExistsMeaning(w: World, log: Log, input: Input, rec: Record)
    ensures var found := MachineInstances(w, log, input.machine, rec.instanceID).value;
      var answer := ExistsStep(w, log, input, rec).value;
      && (found.None? ==> answer == Err(LookupFailed))
      && (found == Some([]) ==> answer == if Waits(rec, input) then Err(RequeueAfter(TWENTY_SECONDS)) else Ok(false))
      && (found.Some? && found.value != [] ==> answer == Ok(found.value[0].state != Some(Terminated)))
  {
    hide MachineInstances;
  }

  /** Without a recorded ID: the answer is about the first existing instance in the reply, and true exactly when
      that one is not terminated; false when the reply shows none, and an error when there is no reply. */
  lemma {:induction false} ExistsOnReply(w: World, s: System, step: Step, clusterID: string,
                                         a: seq<Instance>, i: Instance, b: seq<Instance>)
    requires BelongsTo(step.input.machine, clusterID)
    requires s.stored.instanceID.None? || s.stored.instanceID.value == ""
    requires forall x :: x in a ==> !Exists(x)
    ensures var reply := w.describeInstances(s.log, ByTags(step.input.machine.name, clusterID));
      var answer := ExistsStep(w, s.log, step.input, s.stored).value;
      && (reply.LookupError? ==> answer == Err(LookupFailed))
      && (reply.Reservations? && Flat(reply.list) == a ==> answer == Ok(false))
      && (reply.Reservations? && Flat(reply.list) == a + [i] + b && Exists(i) ==>
            answer == Ok(i.state != Some(Terminated)))
  {
    var m := step.input.machine;
    var reply := w.describeInstances(s.log, ByTags(m.name, clusterID));
    ExistsMeaning(w, s.log, step.input, s.stored);
    MachineLookupMeaning(w, s.log, m, s.stored.instanceID);
    TagLookupMeaning(w, s.log, m, clusterID, EXISTING_STATES);
    forall x | x in a ensures !HasAllowedState(x, EXISTING_STATES) {
      StatesMeaning(x);
    }
    StatesMeaning(i);
    hide MachineInstances, LookupByTags, ExistsStep, Allowed, AllowedOf, Flat, Exists, HasAllowedState;
    if reply.Reservations? {
      AllowedFlat(reply.list, EXISTING_STATES);
      if Flat(reply.list) == a {
        NoneAllowed(a, EXISTING_STATES);
      } else if Flat(reply.list) == a + [i] + b {
        AllowedInOrder(reply.list, EXISTING_STATES, a, i, b);
      }
    }
  }

  lemma NoneAllowed(a: seq<Instance>, states: set<InstanceState>)
    requires forall x :: x in a ==> !HasAllowedState(x, states)
    ensures AllowedOf(a, states) == []
  {
    if AllowedOf(a, states) != [] {
      AllowedOfMeaning(a, states, AllowedOf(a, states)[0]);
    }
  }

  // ---- create ----

  /** Why create does not launch, in the order of its checks. */
  lemma PreflightMeaning(w: World, log: Log, input: Input, rec: Record)
    ensures var found := MachineInstances(w, log, input.machine, rec.instanceID);
      var stopped := LookupByTags(w, found.log, input.machine, STOPPED_STATES);
      var pre := Preflight(w, log, input, rec);
      if found.value.Some? && found.value.value != [] then
        && pre.log == found.log
        && pre.value == Some(if found.value.value[0].state == Some(Terminated) then FoundTerminated else FoundExisting)
      else if rec.instanceID.Some? && rec.instanceID.value != "" then pre == Out(Some(AlreadyCreated), found.log)
      else if input.machine.clusterLabel.None? || input.machine.clusterLabel.value == "" then
        pre == Out(Some(MissingClusterLabel), found.log)
      else if input.isMaster == Ok(false) && (stopped.value.None? || (stopped.value.value != [] &&
              w.terminateInstances(stopped.log, IDs(stopped.value.value)).TerminateError?)) then
        pre.value == Some(RemoveStoppedFailed)
      else
        && (pre.value == Some(UserDataFailed) <==> !input.hasUserData)
        && (pre.value == Some(InfrastructureFailed) <==> input.hasUserData && input.infra.Err?)
        && (pre.value == None <==> input.hasUserData && input.infra.Ok?)
  {
    hide MachineInstances, LookupByTags, IDs;
  }

  /** exists, create and delete read the same lookup alike: exists answers true exactly when create stops at an existing
      instance and exactly when delete sets out to detach and terminate. */
  lemma {:induction false} StepsAgree(w: World, log: Log, input: Input, rec: Record)
    ensures var answer := ExistsStep(w, log, input, rec).value;
      var created, deleted := CreateStep(w, log, input, rec), DeleteStep(w, log, input, rec);
      && (answer == Ok(true) <==> created.value.failure == Some(FoundExisting))
      && (answer == Ok(true) <==>
            || deleted.value.failure in {Some(LoadBalancersFailed), Some(TerminateFailed)}
            || exists k :: |log| <= k < |deleted.log| && deleted.log[k].TerminateInstances?)
      && (created.value.failure == Some(FoundTerminated) ==>
            && answer == Ok(false)
            && deleted.value.failure == None && deleted.value.rec.stateAnnotation == Some(Terminated))
  {
    hide MachineInstances, LaunchInstance, AfterLaunch, Detach, IDs, LookupByTags;
    ExistsMeaning(w, log, input, rec);
    PreflightMeaning(w, log, input, rec);
    PreflightEffects(w, log, input, rec, "any");
    var found := MachineInstances(w, log, input.machine, rec.instanceID);
    LookingUpIsQuiet(w, log, input.machine, rec.instanceID);
    hide Preflight;
    CreateFailures(w, log, input, rec);
    if found.value.Some? && found.value.value != [] && !IsTerminated(found.value.value[0]) {
      var detached := Detach(w, found.log, input.spec.loadBalancers, found.value.value);
      DetachingNamedIsQuiet(w, found.log, input.spec.loadBalancers, found.value.value);
      var deleted := DeleteStep(w, log, input, rec);
      if detached.value {
        assert deleted.log[|detached.log|].TerminateInstances?;
      }
    }
  }

  lemma CreateFailures(w: World, log: Log, input: Input, rec: Record)
    ensures var failure := CreateStep(w, log, input, rec).value.failure;
      && (Preflight(w, log, input, rec).value.Some? ==> failure == Preflight(w, log, input, rec).value)
      && (Preflight(w, log, input, rec).value.None? ==>
            failure.None? || failure.value.LaunchFailed? || failure.value.LoadBalancersFailed?)
  {
    hide Preflight, LaunchInstance, Attach;
  }

  /** What a launched instance puts into the record, and what it does not: no address before the instance was seen. */
  lemma CreateRecords(w: World, log: Log, input: Input, rec: Record)
    ensures var o := CreateStep(w, log, input, rec).value.rec;
      && o.providerID == rec.providerID && o.stateAnnotation == rec.stateAnnotation
      && (!ReachesLaunch(w, log, input, rec) ==> o == rec)
      && (ReachesLaunch(w, log, input, rec) && !StartsInstance(w, log, input, rec) ==>
            o.instanceID == None && o.instanceState == None && o.addresses == [] && o.host == rec.host)
      && (StartsInstance(w, log, input, rec) && !Attaches(w, log, input, rec) ==> o == rec)
      && (StartsInstance(w, log, input, rec) && Attaches(w, log, input, rec) ==>
            var launch := LaunchOf(w, log, input, rec).value;
            && o.instanceID == launch.instance.id && o.instanceState == launch.instance.state && o.addresses == []
            && o.host == if launch.host != "" then Some(launch.host) else rec.host)
  {
    hide Preflight, LaunchInstance, Attach;
  }

  // ---- delete ----

  /** What delete answers and records; a host that AWS took back is recorded as "". */
  lemma DeleteAnswers(w: World, log: Log, input: Input, rec: Record)
    ensures var found := MachineInstances(w, log, input.machine, rec.instanceID);
      var o := DeleteStep(w, log, input, rec).value;
      if found.value.None? then o == Done(rec, Some(LookupFailed))
      else if found.value.value == [] then o == Done(rec, None)
      else if found.value.value[0].state == Some(Terminated) then
        && o.failure == None && o.rec.(host := rec.host) == rec.(stateAnnotation := Some(Terminated))
        && (o.rec.host == rec.host ||
              (o.rec.host == Some("") && w.releaseHosts(found.log, HostOf(rec)) == Release(0) && HostOf(rec) != ""))
      else
        var detached := Detach(w, found.log, input.spec.loadBalancers, found.value.value);
        var reply := w.terminateInstances(detached.log, IDs(found.value.value));
        && (!detached.value ==> o == Done(rec, Some(LoadBalancersFailed)))
        && (detached.value && reply.TerminateError? ==> o == Done(rec, Some(TerminateFailed)))
        && (detached.value && reply.Terminating? ==>
              && o.failure == None
              && o.rec == if |reply.states| == 1 && reply.states[0].Some? then rec.(stateAnnotation := reply.states[0])
                          else rec)
  {
    hide MachineInstances, Detach, IDs;
  }

  // ---- update ----

  /** The addresses of the instance that AWS gave in the last reply of the log. */
  function LastAddresses(log: Log, instance: Instance): Option<Result<seq<string>, ApiError>> {
    if log != [] && log[|log| - 1].NodeAddresses? && log[|log| - 1].described == instance
    then Some(log[|log| - 1].addresses) else None
  }

  /** What update answers when it finds nothing: it waits, or clears the status for good, naming the machine if no
      instance was ever recorded. */
  lemma UpdateOfMissing(w: World, log: Log, input: Input, rec: Record)
    requires MachineInstances(w, log, input.machine, rec.instanceID).value == Some([])
    requires input.machine.clusterLabel.Some? && input.machine.clusterLabel.value != ""
    ensures var o := UpdateStep(w, log, input, rec).value;
      if Waits(rec, input) then o == Done(rec, Some(RequeueAfter(TWENTY_SECONDS)))
      else
        && o.failure == Some(RequeueAfter(THREE_MINUTES))
        && o.rec.instanceID == None && o.rec.instanceState == None && o.rec.addresses == []
        && o.rec.host == rec.host && o.rec.stateAnnotation == rec.stateAnnotation
        && o.rec.providerID == if rec.instanceID.Some? && rec.instanceID.value != "" then rec.providerID
                               else Some("aws:///" + input.spec.zone + "/" + rec.instanceID.GetOr(""))
  {
    hide MachineInstances;
  }

  /** What update answers and records when it settles on an instance: the provider ID and the state as soon as it is
      attached, and once its tags are right its ID and state, and its addresses exactly as AWS gave them in the
      last reply of the step. */
  lemma {:induction false} UpdateOfFound(w: World, log: Log, input: Input, rec: Record, found: seq<Instance>)
    requires found != []
    ensures var n := Settled(found);
      var o := UpdateFound(w, log, input, rec, found);
      && (input.infra.Err? ==> o.value == Done(rec, Some(InfrastructureFailed)))
      && (o.value.failure == Some(LoadBalancersFailed) <==>
            && input.infra.Ok? && (exists i :: i in found && i.state == Some(InstanceState.Running))
            && !Attach(w, log, input.spec.loadBalancers, n).value)
      && (o.value.failure == Some(LoadBalancersFailed) ==> o.value.rec == rec)
      && (input.infra.Ok? && o.value.failure != Some(LoadBalancersFailed) ==>
            && o.value.rec.providerID == Some("aws:///" + n.zone + "/" + n.id.GetOr(""))
            && o.value.rec.stateAnnotation == (if n.state.Some? then n.state else rec.stateAnnotation))
      && (o.value.failure == Some(TagsFailed) ==>
            o.value.rec.(providerID := None, stateAnnotation := None)
            == rec.(providerID := None, stateAnnotation := None))
      && (GetsToStatus(w, log, input, found) ==>
            && LastAddresses(o.log, n).Some?
            && o.value.failure == (if n.state == Some(Pending) then Some(RequeueAfter(TWENTY_SECONDS)) else None)
            && o.value.rec.instanceID == n.id && o.value.rec.instanceState == n.state && o.value.rec.host == rec.host
            && o.value.rec.addresses ==
                 match LastAddresses(o.log, n).value
                 case Ok(addresses) => addresses
                 case Err(_) => rec.addresses)
      && (!GetsToStatus(w, log, input, found) ==>
            o.value.failure in {Some(InfrastructureFailed), Some(LoadBalancersFailed), Some(TagsFailed)})
  {
    InstanceOrder.SortedMeaning(found);
    SomeRuns(found);
    hide Attach, CorrectTags, InstanceOrder.Sorted, InstanceOrder.Running;
  }

  lemma SomeRuns(found: seq<Instance>)
    ensures InstanceOrder.Running(InstanceOrder.Sorted(found)) != [] <==>
      exists i :: i in found && i.state == Some(InstanceState.Running)
  {
    var sorted := InstanceOrder.Sorted(found);
    InstanceOrder.SortedMeaning(found);
    InstanceOrder.RunningMeaning(sorted);
    assert forall i :: i in found <==> i in multiset(found);
    assert forall i :: i in sorted <==> i in multiset(sorted);
    hide InstanceOrder.Sorted, InstanceOrder.Running;
    if InstanceOrder.Running(sorted) != [] {
      var i := InstanceOrder.Running(sorted)[0];
      assert i in InstanceOrder.Running(sorted);
    }
  }

  /** A tag request of an update step is for the instance it settles on, and brings its tags in line with the list built
      from the machine and the infrastructure. */
  lemma {:induction false} UpdateCorrectsTags(w: World, log: Log, input: Input, rec: Record, found: seq<Instance>,
                                              clusterID: string, sent: seq<Tag>, k: nat)
    requires found != [] && BelongsTo(input.machine, clusterID) && UniquelyTagged(Settled(found).tags)
    requires var o := UpdateFound(w, log, input, rec, found);
      |log| <= k < |o.log| && o.log[k].CreateTags? && o.log[k].added == multiset(sent)
    ensures var n := Settled(found);
      && input.infra.Ok?
      && (n.id.Some? ==> UpdateFound(w, log, input, rec, found).log[k].resource == n.id.value)
      && Applied(LiveTags(n.tags), sent) ==
           LiveTags(n.tags) + Desired(TagList(input.machine.name, clusterID, input.spec.tags, input.infra.value))
  {
    hide UpdateFound, CorrectTags, AttachSettled, Settled;
    hide Desired, TagList, Applied, LiveTags, Needed, UniquelyTagged, BelongsTo;
    TagRequestAt(w, log, input, rec, found, k);
    var attached := AttachSettled(w, log, input, found);
    CorrectingTags(w, attached.log, input, Settled(found), clusterID, sent);
  }

  lemma {:induction false} TagRequestAt(w: World, log: Log, input: Input, rec: Record, found: seq<Instance>, k: nat)
    requires found != []
    requires var o := UpdateFound(w, log, input, rec, found); |log| <= k < |o.log| && o.log[k].CreateTags?
    ensures input.infra.Ok?
    ensures k == |AttachSettled(w, log, input, found).log| < |CorrectSettled(w, log, input, found).log|
    ensures UpdateFound(w, log, input, rec, found).log[k] == CorrectSettled(w, log, input, found).log[k]
  {
    hide UpdateFound, CorrectSettled, AttachSettled;
    FoundRequests(w, log, input, rec, found);
    var attached := AttachSettled(w, log, input, found);
    var corrected :=
      if input.infra.Ok? && attached.value then CorrectSettled(w, log, input, found).log else attached.log;
    OnlyTagRequest(log, attached.log, corrected, UpdateFound(w, log, input, rec, found).log, k);
  }

  lemma OnlyTagRequest(log: Log, attached: Log, corrected: Log, next: Log, k: nat)
    requires log <= attached <= corrected && |corrected| <= |attached| + 1
    requires forall j :: |log| <= j < |attached| ==> !attached[j].CreateTags?
    requires || next == corrected
             || (corrected <= next && |next| == |corrected| + 1 && next[|corrected|].NodeAddresses?)
    requires |log| <= k < |next| && next[k].CreateTags?
    ensures k == |attached| < |corrected| && next[k] == corrected[k]
  {
    assert attached <= next;
  }

  /** An update step that gets to the status without a tag request has found every tag of the list right. */
  lemma {:induction false} UpdateWithoutTagRequest(w: World, log: Log, input: Input, rec: Record, found: seq<Instance>,
                                                   clusterID: string, key: string)
    requires found != [] && BelongsTo(input.machine, clusterID) && UniquelyTagged(Settled(found).tags)
    requires GetsToStatus(w, log, input, found)
    requires var o := UpdateFound(w, log, input, rec, found);
      forall k :: |log| <= k < |o.log| ==> !o.log[k].CreateTags?
    ensures var live := LiveTags(Settled(found).tags);
      var desired := Desired(TagList(input.machine.name, clusterID, input.spec.tags, input.infra.value));
      key in desired ==> key in live && live[key] == desired[key]
  {
    var n := Settled(found);
    var o := UpdateFound(w, log, input, rec, found);
    FoundRequests(w, log, input, rec, found);
    var attached := AttachSettled(w, log, input, found);
    CorrectingTags(w, attached.log, input, n, clusterID, []);
    var corrected := CorrectSettled(w, log, input, found);
    hide UpdateFound, CorrectTags, CorrectSettled, AttachSettled, GetsToStatus, Settled;
    hide Desired, TagList, Applied, LiveTags, Needed, UniquelyTagged;
    assert corrected.log <= o.log;
  }

  /** The requests of update on found instances: those that attach the instance, then at most one for its tags, then
      at most one for its addresses. */
  lemma {:induction false} FoundRequests(w: World, log: Log, input: Input, rec: Record, found: seq<Instance>)
    requires found != []
    ensures var o := UpdateFound(w, log, input, rec, found);
      var attached := AttachSettled(w, log, input, found);
      && log <= attached.log && (forall k :: |log| <= k < |attached.log| ==> !attached.log[k].CreateTags?)
      && (input.infra.Err? ==> o.log == log)
      && (input.infra.Ok? && !attached.value ==> o.log == attached.log)
      && (input.infra.Ok? && attached.value ==>
            var corrected := CorrectSettled(w, log, input, found);
            && attached.log <= corrected.log && |corrected.log| <= |attached.log| + 1
            && (!corrected.value ==> o.log == corrected.log)
            && (corrected.value ==>
                  corrected.log <= o.log && |o.log| == |corrected.log| + 1 && o.log[|corrected.log|].NodeAddresses?))
  {
    var attached := AttachSettled(w, log, input, found);
    AttachCreatesNoTags(w, log, input.spec.loadBalancers, Settled(found));
    UpdateFoundGoesOn(w, log, input, rec, found);
    hide UpdateFound, Attach, Settled, InstanceOrder.Sorted, InstanceOrder.Running;
    if input.infra.Ok? && attached.value {
      CorrectingAsksOnce(w, attached.log, input, Settled(found));
    }
  }

  lemma CorrectingAsksOnce(w: World, log: Log, input: Input, n: Instance)
    requires input.infra.Ok?
    ensures var o := CorrectTags(w, log, input, input.infra.value, n);
      log <= o.log && |o.log| <= |log| + 1
  {
    hide TagList, Needed;
  }

  /** update on found instances as a chain of its parts. */
  lemma UpdateFoundGoesOn(w: World, log: Log, input: Input, rec: Record, found: seq<Instance>)
    requires found != []
    ensures var o := UpdateFound(w, log, input, rec, found);
      var attached := AttachSettled(w, log, input, found);
      && (input.infra.Err? ==> o.log == log)
      && (input.infra.Ok? && !attached.value ==> o.log == attached.log)
      && (input.infra.Ok? && attached.value ==>
            var corrected := CorrectSettled(w, log, input, found);
            && (!corrected.value ==> o.log == corrected.log)
            && (corrected.value ==>
                  corrected.log <= o.log && |o.log| == |corrected.log| + 1 && o.log[|corrected.log|].NodeAddresses?))
  {
    InstanceOrder.SortedMeaning(found);
    hide Attach, CorrectTags, InstanceOrder.Sorted, InstanceOrder.Running;
  }

  lemma CorrectingTags(w: World, log: Log, input: Input, n: Instance, clusterID: string, sent: seq<Tag>)
    requires BelongsTo(input.machine, clusterID) && input.infra.Ok? && UniquelyTagged(n.tags)
    ensures var o := CorrectTags(w, log, input, input.infra.value, n);
      var desired := Desired(TagList(input.machine.name, clusterID, input.spec.tags, input.infra.value));
      && log <= o.log && |o.log| <= |log| + 1
      && (o.log == log ==>
            && o.value
            && forall key :: key in desired ==> key in LiveTags(n.tags) && LiveTags(n.tags)[key] == desired[key])
      && (|o.log| > |log| ==>
            && o.log[|log|].CreateTags? && o.log[|log|].resource == n.id.GetOr("")
            && (multiset(sent) == o.log[|log|].added ==> Applied(LiveTags(n.tags), sent) == LiveTags(n.tags) + desired))
  {
    var wanted := TagList(input.machine.name, clusterID, input.spec.tags, input.infra.value);
    var needed := Needed(input.machine.name, clusterID, wanted, n.tags);
    hide TagList, Needed, Desired, Applied, LiveTags;
    if needed == multiset{} {
      CorrectionConverges(input.machine.name, clusterID, input.spec.tags, input.infra.value, n.tags, []);
    } else if multiset(sent) == needed {
      CorrectionConverges(input.machine.name, clusterID, input.spec.tags, input.infra.value, n.tags, sent);
    }
  }

  lemma {:induction false} AttachCreatesNoTags(w: World, log: Log, lbs: seq<LoadBalancer>, instance: Instance)
    ensures var o := Attach(w, log, lbs, instance);
      log <= o.log && forall k :: |log| <= k < |o.log| ==> !o.log[k].CreateTags?
  {
    AttachResult(w, log, lbs, instance);
    var classic := RegisterClassicAll(w, log, Names(lbs, Classic), instance.id.GetOr(""));
    ClassicResult(w, log, Names(lbs, Classic), instance.id.GetOr(""));
    if Names(lbs, Network) != [] {
      var gathered := GatherTargetGroups(w, classic.log, Names(lbs, Network));
      LookupResult(w, classic.log, Names(lbs, Network));
      if gathered.value.Some? {
        RegisterAllResult(w, gathered.log, gathered.value.value, instance);
      }
    }
  }

  /** Where update stops before it looks at instances. */
  lemma UpdateStops(w: World, log: Log, input: Input, rec: Record)
    ensures var found := MachineInstances(w, log, input.machine, rec.instanceID);
      var o := UpdateStep(w, log, input, rec);
      && (input.machine.clusterLabel.None? || input.machine.clusterLabel.value == "" ==>
            o == Out(Done(rec, Some(MissingClusterLabel)), log))
      && (input.machine.clusterLabel.Some? && input.machine.clusterLabel.value != "" ==>
            && (found.value.None? ==> o == Out(Done(rec, Some(LookupFailed)), found.log))
            && (found.value.Some? && found.value.value != [] ==>
                  o == UpdateFound(w, found.log, input, rec, found.value.value)))
  {
    hide MachineInstances, UpdateFound;
  }

  /** The stored record after a patched update step that gets to the status. */
  lemma {:induction false} UpdateStoresWhatAWSSays(w: World, s: System, step: Step)
    requires step.kind.Updating? && step.patch.Patched?
    requires step.input.machine.clusterLabel.Some? && step.input.machine.clusterLabel.value != ""
    requires var found := MachineInstances(w, s.log, step.input.machine, s.stored.instanceID);
      found.value.Some? && found.value.value != [] && GetsToStatus(w, found.log, step.input, found.value.value)
    ensures var next := Next(w, s, step);
      var found := MachineInstances(w, s.log, step.input.machine, s.stored.instanceID).value.value;
      var n := Settled(found);
      && next.stored.instanceID == n.id && next.stored.instanceState == n.state
      && LastAddresses(next.log, n).Some?
      && next.stored.addresses ==
           match LastAddresses(next.log, n).value
           case Ok(addresses) => addresses
           case Err(_) => s.stored.addresses
  {
    hide MachineInstances, UpdateFound, GetsToStatus, CreateStep, DeleteStep, ExistsStep, Settled, LastAddresses;
    var found := MachineInstances(w, s.log, step.input.machine, s.stored.instanceID);
    UpdateOfFound(w, found.log, step.input, s.stored, found.value.value);
  }

  /** A machine whose addresses were once stored is not waited for: a later exists or update that finds nothing
      takes the other branch. */
  lemma {:induction false} SeenMachineIsNotAwaited(w: World, s: System, first: Step, second: Step)
    requires first.kind.Updating? && first.patch.Patched?
    requires first.input.machine.clusterLabel.Some? && first.input.machine.clusterLabel.value != ""
    requires second.input.machine == first.input.machine
    requires var found := MachineInstances(w, s.log, first.input.machine, s.stored.instanceID);
      found.value.Some? && found.value.value != [] && GetsToStatus(w, found.log, first.input, found.value.value)
    requires var next := Next(w, s, first);
      var found := MachineInstances(w, s.log, first.input.machine, s.stored.instanceID).value.value;
      var reply := LastAddresses(next.log, Settled(found));
      && reply.Some? && reply.value.Ok? && reply.value.value != []
      && MachineInstances(w, next.log, second.input.machine, next.stored.instanceID).value == Some([])
    ensures var next := Next(w, s, first);
      && ExistsStep(w, next.log, second.input, next.stored).value == Ok(false)
      && UpdateStep(w, next.log, second.input, next.stored).value.failure == Some(RequeueAfter(THREE_MINUTES))
  {
    hide MachineInstances, GetsToStatus, Next, ExistsStep, UpdateStep, Settled, LastAddresses;
    UpdateStoresWhatAWSSays(w, s, first);
    var next := Next(w, s, first);
    ExistsMeaning(w, next.log, second.input, next.stored);
    UpdateOfMissing(w, next.log, second.input, next.stored);
  }

  /** A machine just created is waited for: until twenty seconds have passed, exists and update that find nothing
      ask to be called again, and keep the record. */
  lemma {:induction false} CreatedMachineIsAwaited(w: World, s: System, first: Step, second: Step)
    requires first.kind.Creating? && first.patch.Patched? && StartsInstance(w, s.log, first.input, s.stored)
    requires Attaches(w, s.log, first.input, s.stored)
    requires var id := LaunchOf(w, s.log, first.input, s.stored).value.instance.id; id.Some? && id.value != ""
    requires second.input.machine.clusterLabel.Some? && second.input.machine.clusterLabel.value != ""
    requires second.input.lastUpdated.Some? && second.input.now < second.input.lastUpdated.value + TWENTY_SECONDS
    requires var next := Next(w, s, first);
      MachineInstances(w, next.log, second.input.machine, next.stored.instanceID).value == Some([])
    ensures var next := Next(w, s, first);
      && ExistsStep(w, next.log, second.input, next.stored).value == Err(RequeueAfter(TWENTY_SECONDS))
      && UpdateStep(w, next.log, second.input, next.stored).value
         == Done(next.stored, Some(RequeueAfter(TWENTY_SECONDS)))
  {
    hide MachineInstances, CreateStep, UpdateStep, DeleteStep, ExistsStep, LaunchOf, Attaches, StartsInstance;
    CreateRecords(w, s.log, first.input, s.stored);
    var next := Next(w, s, first);
    ExistsMeaning(w, next.log, second.input, next.stored);
    UpdateOfMissing(w, next.log, second.input, next.stored);
  }
}
