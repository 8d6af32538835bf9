/** Concrete runs that show where tempting claims about the provider fail. */
module Counterexamples {
  import opened Wrappers
  import opened Cloud
  import opened ProviderSpec
  import opened Launch
  import opened Lookup
  import opened Steps
  import opened Runs
  import opened Effects
  import opened LaunchEffects
  import opened StepEffects
  import LaunchAccounting
  import Quietness
  import Tags

  /** A cloud that answers every request but, if so told, the one for load balancers. Lookups after the first request
      find the given instances; launches run the given ones. */
  function AnsweringWorld(first: InstancesReply, later: InstancesReply, run: seq<Instance>,
                          balancersReadable: bool): World {
    World(
      (log: Log, query: Query) => if log == [] then first else later,
      (log: Log, ids: seq<string>) => Terminating([]),
      (log: Log) => true,
      (log: Log) => Ok("zone"),
      (log: Log, zone: string) => Ok(["h"]),
      (log: Log, host: string) => Release(0),
      (log: Log, request: RunRequest) => Reservation(run),
      (log: Log, resource: string, tags: multiset<Tags.Tag>) => true,
      (log: Log, instance: Instance) => Ok([]),
      (log: Log, names: seq<string>) => if balancersReadable then Ok(["lb"]) else Err(ApiError),
      (log: Log, balancer: string) => Ok([TargetGroup("group", IPTarget)]),
      (log: Log, group: string) => Ok([]),
      (log: Log, group: string, target: string) => true,
      (log: Log, group: string, target: string) => Deregistered,
      (log: Log, name: string, instanceID: string) => true
    )
  }

  const FRESH := Instance(Some("i"), Some(InstanceState.Running), Some(0), "zone", Some("10.0.0.1"), [])
  const HALTED := FRESH.(state := Some(Stopped))
  const BLANK := Record(None, None, None, None, None, [], [])
  const NLB := [LoadBalancer("nlb", Network)]

  function SpecWith(host: Option<HostPlacement>, loadBalancers: seq<LoadBalancer>): Spec {
    Spec("zone", false, NoTenancy, host, "", None, "", Market(Unset, None), loadBalancers, [])
  }

  const ON_NEW_HOST := Some(HostPlacement(OnDedicatedHost, Some(ProviderSpec.DedicatedHost(Some(Dynamic), ""))))

  function InputWith(spec: Spec, isMaster: bool): Input {
    Input(Machine("m", Some("c"), None), spec, Ok(isMaster), true, Ok(None), REQUEUE_AFTER + 1, Some(0),
          (e: LaunchError) => "")
  }

  // ---- A reservation of two instances loses the host ----

  /** The launch starts two instances; the host allocated for it is neither returned nor released. */
  lemma UnexpectedReservationLosesHost()
    ensures var w := AnsweringWorld(Reservations([]), Reservations([]), [FRESH, FRESH], true);
      var o := LaunchInstance(w, [], "c", SpecWith(ON_NEW_HOST, []));
      && o.value == NotLaunched(UnexpectedReservation)
      && Allocations(o.log, "h") == 1 && ReleaseCalls(o.log) == 0
  {
    hide Allocations, Released, AllocateCalls, ReleaseCalls, Launches, TerminateCalls;
    var w := AnsweringWorld(Reservations([]), Reservations([]), [FRESH, FRESH], true);
    var spec := SpecWith(ON_NEW_HOST, []);
    LaunchLedger(w, [], "c", spec, "h");
    FailedLaunchReleasesExactlyWhen(w, [], "c", spec, "h");
    NoCounts();
  }

  lemma NoCounts()
    ensures CountsOf([], "h") == NOTHING
  {
  }

  // ---- Two launches ----

  const STALE := Reservations([])

  /** One create step while lookups find nothing. */
  lemma {:induction false} CreateLaunches(s: System, loadBalancers: seq<LoadBalancer>)
    requires !HasID(s.stored.instanceID) && loadBalancers in {[], NLB}
    ensures var w := AnsweringWorld(STALE, STALE, [FRESH], false);
      var next := Next(w, s, Step(Creating, InputWith(SpecWith(None, loadBalancers), true), Patched));
      && Launches(next.log) == Launches(s.log) + 1
      && (loadBalancers == [] ==> next.stored.instanceID == Some("i") && next.stored.addresses == [])
      && (loadBalancers == NLB ==> next.stored == s.stored)
  {
    hide Allocations, Released, AllocateCalls, ReleaseCalls, Launches, TerminateCalls;
    var w := AnsweringWorld(STALE, STALE, [FRESH], false);
    var input := InputWith(SpecWith(None, loadBalancers), true);
    CreateEffects(w, s.log, input, s.stored, "h");
    var pre := Preflight(w, s.log, input, s.stored);
    assert Allowed([], EXISTING_STATES) == [];
    assert pre.value == None;
    var launch := LaunchInstance(w, pre.log, "c", input.spec);
    assert launch.value == Launched(FRESH, "");
    if loadBalancers == NLB {
      assert NLB[..0] == [];
      assert Names(NLB, Network) == ["nlb"];
    }
  }

  /** Load balancer registration fails after the launch: nothing is recorded, and the next create launches again. */
  lemma LoadBalancerFailureRelaunches()
    ensures var w := AnsweringWorld(STALE, STALE, [FRESH], false);
      var create := Step(Creating, InputWith(SpecWith(None, NLB), true), Patched);
      Launches(Run(w, System(BLANK, []), [create, create]).log) == 2
  {
    var w := AnsweringWorld(STALE, STALE, [FRESH], false);
    var create := Step(Creating, InputWith(SpecWith(None, NLB), true), Patched);
    var s0 := System(BLANK, []);
    hide Next, Launches;
    CreateLaunches(s0, NLB);
    var s1 := Next(w, s0, create);
    CreateLaunches(s1, NLB);
    assert [create, create][1..] == [create] && [create][1..] == [];
    assert Run(w, s0, [create, create]) == Run(w, s1, [create]) == Next(w, s1, create);
    NoLaunches();
  }

  lemma NoLaunches()
    ensures Launches([]) == 0
  {
  }

  /** update gives up on an instance that lookups do not show yet, and the next create launches another one. */
  lemma ClearingRelaunches()
    ensures var w := AnsweringWorld(STALE, STALE, [FRESH], false);
      var input := InputWith(SpecWith(None, []), true);
      var create, update := Step(Creating, input, Patched), Step(Updating, input, Patched);
      Launches(Run(w, System(BLANK, []), [create, update, create]).log) == 2
  {
    var w := AnsweringWorld(STALE, STALE, [FRESH], false);
    var input := InputWith(SpecWith(None, []), true);
    var create, update := Step(Creating, input, Patched), Step(Updating, input, Patched);
    var s0 := System(BLANK, []);
    var s1 := Next(w, s0, create);
    hide Next, Launches;
    CreateLaunches(s0, []);
    UpdateClears(s1);
    var s2 := Next(w, s1, update);
    CreateLaunches(s2, []);
    assert [create, update, create][1..] == [update, create] && [update, create][1..] == [create]
      && [create][1..] == [];
    assert Run(w, s0, [create, update, create]) == Run(w, s1, [update, create]);
    assert Run(w, s1, [update, create]) == Run(w, s2, [create]) == Next(w, s2, create);
    NoLaunches();
  }

  lemma UpdateClears(s: System)
    requires s.stored.instanceID == Some("i") && s.stored.addresses == []
    ensures var w := AnsweringWorld(STALE, STALE, [FRESH], false);
      var next := Next(w, s, Step(Updating, InputWith(SpecWith(None, []), true), Patched));
      !HasID(next.stored.instanceID) && Launches(next.log) == Launches(s.log)
  {
    hide Launches;
    var w := AnsweringWorld(STALE, STALE, [FRESH], false);
    var step := Step(Updating, InputWith(SpecWith(None, []), true), Patched);
    LaunchAccounting.StepAccounting(w, s, step);
    assert Allowed([], EXISTING_STATES) == [];
    assert MachineInstances(w, s.log, step.input.machine, s.stored.instanceID).value == Some([]);
  }

  // ---- A host that nothing will release ----

  const HOSTED := BLANK.(host := Some("h"))

  /** A delete step whose lookups find nothing reports success and asks for no release; the record keeps naming the
      host. */
  lemma EmptyLookupLeavesHost()
    ensures var w := AnsweringWorld(STALE, STALE, [], true);
      var s, delete := System(HOSTED, []), Step(Deleting, InputWith(SpecWith(None, []), true), Patched);
      && Perform(w, s, delete).value.failure == None
      && HostOf(Next(w, s, delete).stored) == "h"
      && forall k :: 0 <= k < |Next(w, s, delete).log| ==> !Next(w, s, delete).log[k].ReleaseHosts?
  {
    assert Allowed([], EXISTING_STATES) == [];
  }

  /** So does one whose release is refused, although the instance is terminated. */
  lemma RefusedReleaseLeavesHost()
    ensures var gone := Reservations([[FRESH.(state := Some(Terminated))]]);
      var w := AnsweringWorld(gone, gone, [], true).(releaseHosts := (log: Log, host: string) => ReleaseError);
      var s, delete := System(HOSTED, []), Step(Deleting, InputWith(SpecWith(None, []), true), Patched);
      && Perform(w, s, delete).value.failure == None
      && HostOf(Next(w, s, delete).stored) == "h"
      && Next(w, s, delete).stored.stateAnnotation == Some(Terminated)
  {
    hide CreateStep, UpdateStep, ExistsStep;
    var ended := FRESH.(state := Some(Terminated));
    assert [[ended]][..0] == [] && [ended][..0] == [];
    assert AllowedOf([ended], EXISTING_STATES) == [ended];
    assert Allowed([[ended]], EXISTING_STATES) == [ended];
  }

  // ---- Terminating without deregistering ----

  /** A failed lookup followed by a good one makes create terminate a stopped instance that is still attached:
      nothing was deregistered before. */
  lemma {:induction false} CreateTerminatesAttachedInstance()
    ensures var w := AnsweringWorld(LookupError, Reservations([[HALTED]]), [FRESH], true);
      var o := Perform(w, System(BLANK, []), Step(Creating, InputWith(SpecWith(None, NLB), false), Patched));
      && |o.log| > 2 && o.log[2] == TerminateInstances(["i"], Terminating([]))
      && !o.log[0].DeregisterTargets? && !o.log[1].DeregisterTargets?
  {
    var w := AnsweringWorld(LookupError, Reservations([[HALTED]]), [FRESH], true);
    var input := InputWith(SpecWith(None, NLB), false);
    var step := Step(Creating, input, Patched);
    var query := ByTags("m", "c");
    var pre := Preflight(w, [], input, BLANK);
    assert [[HALTED]][..0] == [] && [HALTED][..0] == [];
    assert AllowedOf([HALTED], STOPPED_STATES) == [HALTED];
    assert Allowed([], STOPPED_STATES) == [];
    assert Allowed([[HALTED]], STOPPED_STATES) == [HALTED];
    assert IDs([HALTED]) == ["i"];
    assert pre.log == [DescribeInstances(query, LookupError), DescribeInstances(query, Reservations([[HALTED]])),
                       TerminateInstances(["i"], Terminating([]))];
    PerformExtends(w, System(BLANK, []), step);
  }

  lemma PerformExtends(w: World, s: System, step: Step)
    requires step.kind.Creating?
    ensures Preflight(w, s.log, step.input, s.stored).log <= Perform(w, s, step).log
  {
    hide Preflight, LaunchInstance, AfterLaunch;
    var pre := Preflight(w, s.log, step.input, s.stored);
    if pre.value.None? {
      var clusterID := ClusterID(step.input.machine).GetOr("");
      var launch := LaunchInstance(w, pre.log, clusterID, step.input.spec);
      LaunchLedger(w, pre.log, clusterID, step.input.spec, "any");
      if launch.value.Launched? {
        Quietness.RecordingIsQuiet(w, launch.log, step.input, s.stored, launch.value.instance, launch.value.host);
      }
    }
  }

}
