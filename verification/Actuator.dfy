/** The actuator: the machine controller's entry points on the stored machine (pkg/actuators/machine/actuator.go). */
module Actuator {
  import opened Wrappers
  import opened Cloud
  import opened ProviderSpec
  import opened Steps
  import opened Runs
  import Reconciler

  datatype ActuatorError = ReconcileFailed(failure: Failure) | PatchRejected

  class Actuator {
    const client: Client
    var stored: Record

    constructor (client: Client, stored: Record)
      ensures this.client == client && this.stored == stored
    {
      this.client, this.stored := client, stored;
    }

    function State(): System
      reads this, client
    {
      System(stored, client.log)
    }

    /** What the caller is told: a rejected patch hides the reconciler's own error. */
    static function Told(failure: Option<Failure>, patch: Patch): (r: Option<ActuatorError>)
      ensures r == None <==> failure == None && patch == Patched
      ensures r == Some(PatchRejected) <==> patch != Patched
      ensures patch == Patched && failure.Some? ==> r == Some(ReconcileFailed(failure.value))
    {
      if !patch.Patched? then Some(PatchRejected)
      else if failure.Some? then Some(ReconcileFailed(failure.value))
      else None
    }

    method Create(input: Input, patch: Patch) returns (error: Option<ActuatorError>)
      modifies this, client
      ensures State() == Next(client.world, old(State()), Step(Creating, input, patch))
      ensures error == Told(Perform(client.world, old(State()), Step(Creating, input, patch)).value.failure, patch)
    {
      var config := new ProviderConfig(input.spec);
      var reconciler := new Reconciler.Reconciler(client, config, input, stored);
      var failure := reconciler.Create();
      error := PatchMachine(reconciler.InMemory(), failure, patch);
    }

    method Update(input: Input, patch: Patch) returns (error: Option<ActuatorError>)
      modifies this, client
      ensures State() == Next(client.world, old(State()), Step(Updating, input, patch))
      ensures error == Told(Perform(client.world, old(State()), Step(Updating, input, patch)).value.failure, patch)
    {
      var config := new ProviderConfig(input.spec);
      var reconciler := new Reconciler.Reconciler(client, config, input, stored);
      var failure := reconciler.Update();
      error := PatchMachine(reconciler.InMemory(), failure, patch);
    }

    method Delete(input: Input, patch: Patch) returns (error: Option<ActuatorError>)
      modifies this, client
      ensures State() == Next(client.world, old(State()), Step(Deleting, input, patch))
      ensures error == Told(Perform(client.world, old(State()), Step(Deleting, input, patch)).value.failure, patch)
    {
      var config := new ProviderConfig(input.spec);
      var reconciler := new Reconciler.Reconciler(client, config, input, stored);
      var failure := reconciler.Delete();
      error := PatchMachine(reconciler.InMemory(), failure, patch);
    }

    method Exists(input: Input) returns (r: Result<bool, Failure>)
      modifies client
      ensures Out(r, client.log) == ExistsStep(client.world, old(client.log), input, stored)
      ensures forall patch ::
        System(stored, client.log) == Next(client.world, old(State()), Step(Checking, input, patch))
    {
      var config := new ProviderConfig(input.spec);
      var reconciler := new Reconciler.Reconciler(client, config, input, stored);
      r := reconciler.Exists();
    }

    method PatchMachine(inMemory: Record, failure: Option<Failure>, patch: Patch) returns (error: Option<ActuatorError>)
      modifies this
      ensures stored == Persisted(old(stored), inMemory, patch)
      ensures error == Told(failure, patch)
    {
      match patch {
        case MainRejected =>
          return Some(PatchRejected);
        case StatusRejected =>
          stored := stored.(providerID := inMemory.providerID, stateAnnotation := inMemory.stateAnnotation);
          return Some(PatchRejected);
        case Patched =>
          stored := inMemory;
      }
      return if failure.Some? then Some(ReconcileFailed(failure.value)) else None;
    }
  }
}
