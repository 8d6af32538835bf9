/** Runs of one machine: each step starts from the stored record, works on AWS and patches the record back
    (pkg/actuators/machine/actuator.go, pkg/actuators/machine/machine_scope.go). */
module Runs {
  import opened Wrappers
  import opened Cloud
  import opened Steps

  datatype Kind = Creating | Updating | Deleting | Checking

  /** The main resource is patched before the status; either patch may be rejected. */
  datatype Patch = Patched | MainRejected | StatusRejected

  datatype Step = Step(kind: Kind, input: Input, patch: Patch)

  /** The stored record and everything that was asked of AWS so far. */
  datatype System = System(stored: Record, log: Log)

  function Persisted(stored: Record, inMemory: Record, patch: Patch): Record {
    match patch
    case Patched => inMemory
    case MainRejected => stored
    case StatusRejected => stored.(providerID := inMemory.providerID, stateAnnotation := inMemory.stateAnnotation)
  }

  function Perform(w: World, s: System, step: Step): Out<Done> {
    match step.kind
    case Creating => CreateStep(w, s.log, step.input, s.stored)
    case Updating => UpdateStep(w, s.log, step.input, s.stored)
    case Deleting => DeleteStep(w, s.log, step.input, s.stored)
    case Checking =>
      var r := ExistsStep(w, s.log, step.input, s.stored);
      Out(Done(s.stored, if r.value.Err? then Some(r.value.error) else None), r.log)
  }

  /** Every operation but the existence check patches, whether it succeeded or failed. */
  function Next(w: World, s: System, step: Step): System {
    var o := Perform(w, s, step);
    System(if step.kind.Checking? then s.stored else Persisted(s.stored, o.value.rec, step.patch), o.log)
  }

  function Run(w: World, s: System, steps: seq<Step>): System
    decreases |steps|
  {
    if steps == [] then s else Run(w, Next(w, s, steps[0]), steps[1..])
  }

  predicate AllPatched(steps: seq<Step>) {
    forall i :: 0 <= i < |steps| ==> steps[i].patch.Patched?
  }
}
