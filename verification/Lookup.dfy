/** Finding the instances of a machine and terminating them (pkg/actuators/machine/utils.go,
    pkg/actuators/machine/reconciler.go). */
module Lookup {
  import opened Wrappers
  import opened Cloud

  /** What the provider reads from the machine object besides its spec and status. */
  datatype Machine = Machine(name: string, clusterLabel: Option<string>, upstreamLabel: Option<string>)

  function ClusterID(m: Machine): Option<string> {
    if m.clusterLabel.Some? then m.clusterLabel else m.upstreamLabel
  }

  /** validateMachine: the cluster label is there and not empty. */
  predicate ValidMachine(m: Machine) {
    m.clusterLabel.GetOr("") != ""
  }

  const EXISTING_STATES := {Running, Pending, Stopped, Stopping, ShuttingDown, Terminated}
  const STOPPED_STATES := {Stopped, Stopping}

  predicate HasAllowedState(i: Instance, states: set<InstanceState>) {
    i.id.Some? && i.state.Some? && (states == {} || i.state.value in states)
  }

  predicate IsTerminated(i: Instance) {
    i.state == Some(Terminated)
  }

  // ---- Lookups; None stands for an error ----

  function AllowedByID(reply: InstancesReply): Option<Instance> {
    if reply.Reservations? && |reply.list| == 1 && |reply.list[0]| == 1
      && HasAllowedState(reply.list[0][0], EXISTING_STATES)
    then Some(reply.list[0][0]) else None
  }

  function LookupByID(w: World, log: Log, id: string): Out<Option<Instance>> {
    var reply := w.describeInstances(log, ByID(id));
    Out(AllowedByID(reply), log + [DescribeInstances(ByID(id), reply)])
  }

  function AllowedOf(instances: seq<Instance>, states: set<InstanceState>): seq<Instance> {
    if instances == [] then []
    else
      var n := |instances| - 1;
      AllowedOf(instances[..n], states) + (if HasAllowedState(instances[n], states) then [instances[n]] else [])
  }

  function Allowed(reservations: seq<seq<Instance>>, states: set<InstanceState>): seq<Instance> {
    if reservations == [] then []
    else Allowed(reservations[..|reservations| - 1], states) + AllowedOf(reservations[|reservations| - 1], states)
  }

  lemma {:induction false} AllowedOfMeaning(instances: seq<Instance>, states: set<InstanceState>, i: Instance)
    ensures i in AllowedOf(instances, states) <==> i in instances && HasAllowedState(i, states)
  {
    if instances != [] {
      var n := |instances| - 1;
      AllowedOfMeaning(instances[..n], states, i);
      assert instances == instances[..n] + [instances[n]];
    }
  }

  /** A lookup finds exactly the instances of all reservations that are in an allowed state. */
  lemma {:induction false} AllowedMeaning(reservations: seq<seq<Instance>>, states: set<InstanceState>, i: Instance)
    ensures i in Allowed(reservations, states) <==>
      HasAllowedState(i, states) && exists k :: 0 <= k < |reservations| && i in reservations[k]
  {
    if reservations != [] {
      var n := |reservations| - 1;
      AllowedMeaning(reservations[..n], states, i);
      AllowedOfMeaning(reservations[n], states, i);
      assert forall k :: 0 <= k < n ==> reservations[..n][k] == reservations[k];
    }
  }

  function LookupByTags(w: World, log: Log, m: Machine, states: set<InstanceState>): Out<Option<seq<Instance>>> {
    if ClusterID(m).None? then Out(None, log)
    else
      var query := ByTags(m.name, ClusterID(m).value);
      var reply := w.describeInstances(log, query);
      Out(if reply.LookupError? then None else Some(Allowed(reply.list, states)),
          log + [DescribeInstances(query, reply)])
  }

  predicate HasID(id: Option<string>) {
    id.Some? && id.value != ""
  }

  /** The recorded instance by its ID; without one, or when that fails, every instance with the machine's tags. */
  function MachineInstances(w: World, log: Log, m: Machine, instanceID: Option<string>): Out<Option<seq<Instance>>> {
    if HasID(instanceID) then
      var byID := LookupByID(w, log, instanceID.value);
      if byID.value.Some? then Out(Some([byID.value.value]), byID.log)
      else LookupByTags(w, byID.log, m, EXISTING_STATES)
    else LookupByTags(w, log, m, EXISTING_STATES)
  }

  // ---- What a lookup returns, told from the answers ----

  /** All instances of an answer in its order, whatever reservation they are in. */
  function Flat(reservations: seq<seq<Instance>>): seq<Instance> {
    if reservations == [] then []
    else Flat(reservations[..|reservations| - 1]) + reservations[|reservations| - 1]
  }

  lemma {:induction false} AllowedOfJoins(a: seq<Instance>, b: seq<Instance>, states: set<InstanceState>)
    ensures AllowedOf(a + b, states) == AllowedOf(a, states) + AllowedOf(b, states)
  {
    if b == [] {
      assert a + b == a;
    } else {
      var n := |b| - 1;
      assert (a + b)[..|a + b| - 1] == a + b[..n];
      AllowedOfJoins(a, b[..n], states);
    }
  }

  lemma {:induction false} AllowedFlat(reservations: seq<seq<Instance>>, states: set<InstanceState>)
    ensures Allowed(reservations, states) == AllowedOf(Flat(reservations), states)
  {
    if reservations != [] {
      var n := |reservations| - 1;
      AllowedFlat(reservations[..n], states);
      AllowedOfJoins(Flat(reservations[..n]), reservations[n], states);
    }
  }

  /** The allowed instances of an answer keep its order: each is followed by the allowed ones of what follows it. */
  lemma {:induction false} AllowedInOrder(reservations: seq<seq<Instance>>, states: set<InstanceState>,
                                          a: seq<Instance>, i: Instance, b: seq<Instance>)
    requires Flat(reservations) == a + [i] + b
    ensures Allowed(reservations, states) ==
      AllowedOf(a, states)
      + (if i.id.Some? && i.state.Some? && (states == {} || i.state.value in states) then [i] else [])
      + AllowedOf(b, states)
    ensures (forall x :: x in a ==> !HasAllowedState(x, states)) ==> AllowedOf(a, states) == []
  {
    AllowedFlat(reservations, states);
    AllowedOfJoins(a + [i], b, states);
    AllowedOfJoins(a, [i], states);
    assert [i][..0] == [] && AllowedOf([i], states) == if HasAllowedState(i, states) then [i] else [];
    if AllowedOf(a, states) != [] {
      AllowedOfMeaning(a, states, AllowedOf(a, states)[0]);
    }
  }

  /** The states in which an instance counts as existing, and as stopped. */
  predicate Exists(i: Instance) {
    && i.id.Some?
    && i.state in {Some(Running), Some(Pending), Some(Stopped), Some(Stopping), Some(ShuttingDown), Some(Terminated)}
  }

  predicate IsStopped(i: Instance) {
    i.id.Some? && i.state in {Some(Stopped), Some(Stopping)}
  }

  lemma StatesMeaning(i: Instance)
    ensures HasAllowedState(i, EXISTING_STATES) <==> Exists(i)
    ensures HasAllowedState(i, STOPPED_STATES) <==> IsStopped(i)
  {
  }

  /** The cluster label is the provider's own, else the upstream one. */
  predicate BelongsTo(m: Machine, clusterID: string) {
    m.clusterLabel == Some(clusterID) || (m.clusterLabel.None? && m.upstreamLabel == Some(clusterID))
  }

  /** A lookup by tags asks for the machine's name and cluster, and fails exactly when AWS does. */
  lemma {:induction false} TagLookupMeaning(w: World, log: Log, m: Machine, clusterID: string,
                                            states: set<InstanceState>)
    requires BelongsTo(m, clusterID)
    ensures var query := ByTags(m.name, clusterID);
      var reply := w.describeInstances(log, query);
      var o := LookupByTags(w, log, m, states);
      && o.log == log + [DescribeInstances(query, reply)]
      && (o.value.None? <==> reply.LookupError?)
      && (o.value.Some? ==> o.value.value == AllowedOf(Flat(reply.list), states))
  {
    var reply := w.describeInstances(log, ByTags(m.name, clusterID));
    if reply.Reservations? {
      AllowedFlat(reply.list, states);
    }
  }

  /** The recorded instance alone, if AWS shows exactly it; in every other case what a lookup by tags finds
      afterwards. */
  lemma {:induction false} MachineLookupMeaning(w: World, log: Log, m: Machine, instanceID: Option<string>)
    ensures var o := MachineInstances(w, log, m, instanceID);
      if instanceID.None? || instanceID.value == "" then o == LookupByTags(w, log, m, EXISTING_STATES)
      else
        var reply := w.describeInstances(log, ByID(instanceID.value));
        var next := log + [DescribeInstances(ByID(instanceID.value), reply)];
        if reply.Reservations? && |reply.list| == 1 && |reply.list[0]| == 1 && Exists(reply.list[0][0])
        then o == Out(Some(reply.list[0]), next)
        else o == LookupByTags(w, next, m, EXISTING_STATES)
  {
    if HasID(instanceID) {
      var reply := w.describeInstances(log, ByID(instanceID.value));
      if reply.Reservations? && |reply.list| == 1 && |reply.list[0]| == 1 {
        StatesMeaning(reply.list[0][0]);
        assert reply.list[0] == [reply.list[0][0]];
      }
    }
  }

  /** Whatever the lookup finds is in an existing state. */
  lemma {:induction false} FoundExist(w: World, log: Log, m: Machine, instanceID: Option<string>)
    ensures var found := MachineInstances(w, log, m, instanceID).value;
      found.Some? ==> forall i :: i in found.value ==> HasAllowedState(i, EXISTING_STATES) && Exists(i)
  {
    hide Allowed;
    var found := MachineInstances(w, log, m, instanceID).value;
    if found.Some? {
      forall i | i in found.value
        ensures HasAllowedState(i, EXISTING_STATES) && Exists(i)
      {
        StatesMeaning(i);
        var byTags := if HasID(instanceID) then LookupByID(w, log, instanceID.value).log else log;
        if found == LookupByTags(w, byTags, m, EXISTING_STATES).value {
          AllowedMeaning(w.describeInstances(byTags, ByTags(m.name, ClusterID(m).value)).list, EXISTING_STATES, i);
        }
      }
    }
  }

  method InstanceHasAllowedState(i: Instance, states: set<InstanceState>) returns (ok: bool)
    ensures ok == HasAllowedState(i, states)
    ensures ok <==> i.id.Some? && i.state.Some? && (states == {} || i.state.value in states)
  {
    if i.id.None? {
      return false;
    }
    if i.state.None? {
      return false;
    }
    if states == {} {
      return true;
    }
    return i.state.value in states;
  }

  method GetInstanceByID(client: Client, id: string) returns (r: Option<Instance>)
    requires id != ""
    modifies client
    ensures Out(r, client.log) == LookupByID(client.world, old(client.log), id)
  {
    var result := client.DescribeInstances(ByID(id));
    if result.LookupError? {
      return None;
    }
    if |result.list| != 1 {
      return None;
    }
    if |result.list[0]| != 1 {
      return None;
    }
    var instance := result.list[0][0];
    var ok := InstanceHasAllowedState(instance, EXISTING_STATES);
    return if ok then Some(instance) else None;
  }

  method GetInstances(client: Client, m: Machine, states: set<InstanceState>) returns (r: Option<seq<Instance>>)
    modifies client
    ensures Out(r, client.log) == LookupByTags(client.world, old(client.log), m, states)
  {
    var clusterID := ClusterID(m);
    if clusterID.None? {
      return None;
    }
    var result := client.DescribeInstances(ByTags(m.name, clusterID.value));
    if result.LookupError? {
      return None;
    }
    ghost var after := client.log;
    var instances: seq<Instance> := [];
    for i := 0 to |result.list|
      invariant instances == Allowed(result.list[..i], states) && client.log == after
    {
      ghost var earlier := instances;
      var reservation := result.list[i];
      for j := 0 to |reservation|
        invariant instances == earlier + AllowedOf(reservation[..j], states) && client.log == after
      {
        assert reservation[..j + 1][..j] == reservation[..j];
        var ok := InstanceHasAllowedState(reservation[j], states);
        if ok {
          instances := instances + [reservation[j]];
        }
      }
      assert reservation[..|reservation|] == reservation;
      assert result.list[..i + 1][..i] == result.list[..i];
    }
    assert result.list[..|result.list|] == result.list;
    return Some(instances);
  }

  // ---- Termination ----

  function IDs(instances: seq<Instance>): seq<string> {
    if instances == [] then [] else IDs(instances[..|instances| - 1]) + [instances[|instances| - 1].id.GetOr("")]
  }

  /** The IDs are those of the instances, one by one. */
  predicate NamesExactly(ids: seq<string>, instances: seq<Instance>) {
    |ids| == |instances| && forall k :: 0 <= k < |instances| ==> instances[k].id == Some(ids[k])
  }

  /** A terminate request for instances that a lookup may return names every one of them. */
  lemma {:induction false} IDsMeaning(instances: seq<Instance>, states: set<InstanceState>)
    requires forall i :: i in instances ==> HasAllowedState(i, states)
    ensures NamesExactly(IDs(instances), instances)
  {
    if instances != [] {
      var n := |instances| - 1;
      assert instances[n] in instances && forall i :: i in instances[..n] ==> i in instances;
      IDsMeaning(instances[..n], states);
    }
  }

  /** One request for all; the answer is the new states, None for an error. */
  function Terminate(w: World, log: Log, instances: seq<Instance>): Out<Option<seq<Option<InstanceState>>>> {
    var reply := w.terminateInstances(log, IDs(instances));
    Out(if reply.TerminateError? then None else Some(reply.states), log + [TerminateInstances(IDs(instances), reply)])
  }

  method TerminateAll(client: Client, instances: seq<Instance>) returns (r: Option<seq<Option<InstanceState>>>)
    modifies client
    ensures Out(r, client.log) == Terminate(client.world, old(client.log), instances)
    ensures |client.log| == |old(client.log)| + 1 && old(client.log) <= client.log
    ensures var e := client.log[|old(client.log)|];
      && e.TerminateInstances? && |e.ids| == |instances|
      && (forall k :: 0 <= k < |instances| ==> e.ids[k] == instances[k].id.GetOr(""))
      && r == if e.terminated.TerminateError? then None else Some(e.terminated.states)
  {
    var ids: seq<string> := [];
    for i := 0 to |instances|
      invariant ids == IDs(instances[..i])
      invariant |ids| == i && forall k :: 0 <= k < i ==> ids[k] == instances[k].id.GetOr("")
    {
      assert instances[..i + 1][..i] == instances[..i];
      ids := ids + [instances[i].id.GetOr("")];
    }
    assert instances[..|instances|] == instances;
    var output := client.TerminateInstances(ids);
    if output.TerminateError? {
      return None;
    }
    return Some(output.states);
  }
}
