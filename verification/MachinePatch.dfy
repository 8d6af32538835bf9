/** Writing a reconciled machine back in two parts: the main resource, then its status
    (pkg/actuators/machine/machine_scope.go). */
module MachinePatch {
  import opened Wrappers
  import opened Conditions
  import opened Cloud
  import opened Steps
  import opened Runs
  import opened MergePatch

  /** A machine object as the client holds it. */
  datatype Machine = Machine(main: Fields, status: Fields) {
    predicate Valid() {
      Status !in main
    }

    function Document(): Json {
      Object(main[Status := Object(status)])
    }
  }

  function Decode(document: Json): Machine {
    var fields := FieldsOf(document);
    Machine(fields - {Status}, if Status in fields then FieldsOf(fields[Status]) else map[])
  }

  /** Every member of one document but the status, which comes from another. */
  function Combine(main: Json, status: Json): Json {
    var from := FieldsOf(status);
    Object((FieldsOf(main) - {Status}) + (if Status in from then map[Status := from[Status]] else map[]))
  }

  /** The machine with the provider status put into its status. */
  function WithProviderStatus(m: Machine, providerStatus: Json): Machine {
    m.(status := m.status[ProviderStatus := providerStatus])
  }

  /** The stored document, seen by the two ways of patching it. */
  class ApiServer {
    var stored: Json

    constructor (stored: Json)
      ensures this.stored == stored
    {
      this.stored := stored;
    }

    /** A patch of the main resource leaves the status as stored. */
    method Patch(patch: Fields, accepted: bool) returns (response: Option<Json>)
      modifies this
      ensures stored == if accepted then Combine(Merge(old(stored), Object(patch)), old(stored)) else old(stored)
      ensures response == if accepted then Some(stored) else None
    {
      if !accepted {
        return None;
      }
      stored := Combine(Merge(stored, Object(patch)), stored);
      return Some(stored);
    }

    /** A patch of the status changes nothing else. */
    method PatchStatus(patch: Fields, accepted: bool) returns (response: Option<Json>)
      modifies this
      ensures stored == if accepted then Combine(old(stored), Merge(old(stored), Object(patch))) else old(stored)
      ensures response == if accepted then Some(stored) else None
    {
      if !accepted {
        return None;
      }
      stored := Combine(stored, Merge(stored, Object(patch)));
      return Some(stored);
    }
  }

  // ---- What patching in parts amounts to ----

  /** The document that the whole patch makes of the original. */
  function Target(original: Machine, reconciled: Machine): Json {
    Merge(original.Document(), Object(Diff(original.Document(), reconciled.Document())))
  }

  /** The main resource after its patch, and the machine that the client then patches the status of. */
  function MainPatched(original: Machine, reconciled: Machine): Json {
    Combine(Target(original, reconciled), original.Document())
  }

  function Restored(original: Machine, reconciled: Machine): Machine {
    Decode(MainPatched(original, reconciled)).(status := reconciled.status)
  }

  lemma {:induction false} CombinedIs(main: Json, status: Json, whole: Json)
    requires forall k :: k != Status ==> AgreeOn(main, whole, k)
    requires AgreeOn(status, whole, Status)
    ensures Combine(main, status) == whole
  {
    assert AgreeOn(main, whole, ProviderStatus);
    var m := Combine(main, status).fields;
    forall k ensures k in m <==> k in whole.fields {
      assert k != Status ==> AgreeOn(main, whole, k);
    }
    forall k | k in m ensures m[k] == whole.fields[k] {
      assert k != Status ==> AgreeOn(main, whole, k);
    }
    assert m == whole.fields;
  }

  lemma {:induction false} CombinedAgrees(main: Json, status: Json, k: Key)
    requires main.Object? && status.Object?
    ensures AgreeOn(if k == Status then status else main, Combine(main, status), k)
  {
  }

  /** The status patch completes what the patch of the main resource left out, although it is computed on the
      machine that the first response overwrote. */
  lemma {:induction false} TwoPartsMakeOnePatch(original: Machine, reconciled: Machine)
    requires original.Valid() && reconciled.Valid()
    ensures
      var half := MainPatched(original, reconciled);
      var rest := Diff(original.Document(), Restored(original, reconciled).Document());
      Combine(half, Merge(half, Object(rest))) == Target(original, reconciled)
  {
    var o, r := original.Document(), reconciled.Document();
    assert Target(original, reconciled).Object?;
    hide Merge, Diff, Combine;
    var target, half := Target(original, reconciled), MainPatched(original, reconciled);
    var restored := Restored(original, reconciled).Document();
    var rest := Diff(o, restored);
    CombinedAgrees(target, o, Status);
    DiffIsMemberwise(o, r, restored, Status);
    MergeIsMemberwise(o, Object(Diff(o, r)), half, Object(rest), Status);
    forall k | k != Status ensures AgreeOn(half, target, k) {
      CombinedAgrees(target, o, k);
    }
    CombinedIs(half, Merge(half, Object(rest)), target);
  }

  /** The test for skipping the main patch: nothing but the status may differ. */
  lemma {:induction false} NothingButStatus(original: Machine, reconciled: Machine)
    requires original.Valid() && reconciled.Valid()
    ensures Diff(original.Document(), reconciled.(status := original.status).Document()) == map[] <==>
            original.main == reconciled.main
  {
    var o, r := original.Document(), reconciled.(status := original.status).Document();
    DiffIsEmptyExactlyWhenEqual(o, r);
    if o == r {
      assert original.main == o.fields - {Status};
      assert reconciled.main == r.fields - {Status};
    }
  }

  /** When the test says so, sending the main patch changes neither the stored document nor the client's machine. */
  lemma {:induction false} SkippingIsSending(original: Machine, reconciled: Machine)
    requires original.Valid() && reconciled.Valid()
    requires Diff(original.Document(), reconciled.(status := original.status).Document()) == map[]
    ensures MainPatched(original, reconciled) == original.Document()
    ensures Restored(original, reconciled) == reconciled
  {
    NothingButStatus(original, reconciled);
    hide Merge, Diff, Combine;
    var o, r := original.Document(), reconciled.Document();
    var target := Target(original, reconciled);
    forall k | k != Status ensures AgreeOn(target, o, k) {
      EqualMemberIsKept(o, r, k);
    }
    CombinedIs(target, o, o);
    assert o.fields - {Status} == reconciled.main;
  }

  lemma {:induction false} DecodingUndoesEncoding(m: Machine)
    requires m.Valid()
    ensures Decode(m.Document()) == m
  {
    assert m.Document().fields - {Status} == m.main;
  }

  /** Which of the two patches stops the write: the main one is sent only if needed, and first. */
  function Outcome(needed: bool, mainAccepted: bool, statusAccepted: bool): Patch {
    if needed && !mainAccepted then MainRejected else if !statusAccepted then StatusRejected else Patched
  }

  function StoredAfter(original: Machine, reconciled: Machine, patch: Patch): Json {
    match patch
    case Patched => Target(original, reconciled)
    case MainRejected => original.Document()
    case StatusRejected => MainPatched(original, reconciled)
  }

  lemma {:induction false} ExpressibleChangeIsStored(original: Machine, reconciled: Machine)
    requires original.Valid() && reconciled.Valid()
    requires Expressible(original.Document(), reconciled.Document())
    ensures Target(original, reconciled) == reconciled.Document()
    ensures MainPatched(original, reconciled) == reconciled.(status := original.status).Document()
  {
    PatchReachesExactlyWhen(original.Document(), reconciled.Document());
    hide Merge, Diff, Expressible, Combine;
    CombinedIs(reconciled.Document(), original.Document(), reconciled.(status := original.status).Document());
  }

  /** One reconcile request's view of the machine. */
  class MachineScope {
    const server: ApiServer
    const machineToBePatched: Machine
    const originalStatus: Fields
    var machine: Machine
    var providerStatus: Json

    constructor (server: ApiServer, machine: Machine, providerStatus: Json)
      ensures this.server == server && this.machine == machine && this.providerStatus == providerStatus
      ensures machineToBePatched == machine && originalStatus == machine.status
    {
      this.server, this.machine, this.providerStatus := server, machine, providerStatus;
      machineToBePatched, originalStatus := machine, machine.status;
    }

    predicate Valid()
      reads this
    {
      machineToBePatched.Valid() && originalStatus == machineToBePatched.status && machine.Valid()
    }

    /** A patch is needed exactly when something outside the status has changed. */
    method NeedsResourcePatch() returns (needed: bool)
      requires Valid()
      ensures needed <==> machine.main != machineToBePatched.main
    {
      var machineCopy := machine.(status := originalStatus);
      needed := Diff(machineToBePatched.Document(), machineCopy.Document()) != map[];
      NothingButStatus(machineToBePatched, machine);
    }

    /** With no other writer, a successful call stores the reconciled machine exactly when a merge patch can express the
        change, and a failed one stores the main resource's part or nothing. */
    method PatchMachine(mainAccepted: bool, statusAccepted: bool) returns (ok: bool)
      requires Valid() && server.stored == machineToBePatched.Document()
      modifies this`machine, server
      ensures
        var reconciled := WithProviderStatus(old(machine), providerStatus);
        var outcome := Outcome(reconciled.main != machineToBePatched.main, mainAccepted, statusAccepted);
        && (ok <==> outcome.Patched?)
        && (ok <==> statusAccepted && (mainAccepted || old(machine).main == machineToBePatched.main))
        && reconciled.main == old(machine).main
        && reconciled.status == old(machine).status[ProviderStatus := providerStatus]
        && (!ok && !mainAccepted ==> server.stored == old(server.stored))
        && server.stored == StoredAfter(machineToBePatched, reconciled, outcome)
        && (ok ==> machine == Decode(server.stored))
        && (ok ==> (server.stored == reconciled.Document() <==>
                    Expressible(machineToBePatched.Document(), reconciled.Document())))
        && (ok && Expressible(machineToBePatched.Document(), reconciled.Document()) ==> machine == reconciled)
    {
      hide Merge, Diff, Combine, Decode, Expressible, FieldsOf;
      machine := WithProviderStatus(machine, providerStatus);
      ghost var reconciled := machine;
      var needsResourcePatch := NeedsResourcePatch();
      if needsResourcePatch {
        var statusCopy := machine.status;
        var response := server.Patch(Diff(machineToBePatched.Document(), machine.Document()), mainAccepted);
        if response == None {
          return false;
        }
        machine := Decode(response.value);
        machine := machine.(status := statusCopy);
      } else {
        NothingButStatus(machineToBePatched, machine);
        SkippingIsSending(machineToBePatched, machine);
      }
      TwoPartsMakeOnePatch(machineToBePatched, reconciled);
      DecodingUndoesEncoding(reconciled);
      PatchReachesExactlyWhen(machineToBePatched.Document(), reconciled.Document());
      var response := server.PatchStatus(Diff(machineToBePatched.Document(), machine.Document()), statusAccepted);
      if response == None {
        return false;
      }
      machine := Decode(response.value);
      return true;
    }
  }

  // ---- Records as documents ----

  /** Any way of writing a record as a machine object that keeps apart what belongs to the main resource. */
  type MainEncoding = (Option<string>, Option<InstanceState>) -> Fields

  type StatusEncoding = (Option<string>, Option<InstanceState>, Option<string>, seq<Condition>, seq<string>) -> Fields

  function Encode(main: MainEncoding, status: StatusEncoding, rec: Record): Machine {
    Machine(main(rec.providerID, rec.stateAnnotation),
            status(rec.instanceID, rec.instanceState, rec.host, rec.conditions, rec.addresses))
  }

  /** Patching documents does to the stored machine what runs assume of the stored record. */
  lemma {:induction false} PatchingPersistsTheRecord(main: MainEncoding, status: StatusEncoding,
                                                     stored: Record, inMemory: Record, patch: Patch)
    requires forall rec :: Encode(main, status, rec).Valid()
    requires Expressible(Encode(main, status, stored).Document(), Encode(main, status, inMemory).Document())
    ensures StoredAfter(Encode(main, status, stored), Encode(main, status, inMemory), patch) ==
            Encode(main, status, Persisted(stored, inMemory, patch)).Document()
  {
    var o, r := Encode(main, status, stored), Encode(main, status, inMemory);
    assert o.Valid() && r.Valid();
    hide Merge, Diff, Combine, Expressible, Target, MainPatched, Machine.Document;
    ExpressibleChangeIsStored(o, r);
  }
}
