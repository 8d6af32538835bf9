/** The condition list of the provider status (pkg/actuators/machine/utils.go). */
module Conditions {
  import opened Wrappers

  datatype Status = True | False | Unknown

  datatype Kind = MachineCreation | OtherKind(name: string)
  datatype Reason = Succeeded | Failed | OtherReason(name: string)

  datatype Condition = Condition(kind: Kind, status: Status, reason: Reason, message: string, lastTransition: int)

  const CREATED_MESSAGE := "Machine successfully created"

  function ConditionSuccess(): Condition {
    Condition(MachineCreation, True, Succeeded, CREATED_MESSAGE, 0)
  }

  /** The failure condition, with the message of the error that caused it. */
  function ConditionFailed(message: string): Condition {
    Condition(MachineCreation, False, Failed, message, 0)
  }

  /** The first condition of the given kind. */
  function Find(conditions: seq<Condition>, kind: Kind): Option<Condition> {
    if conditions == [] then None
    else if conditions[0].kind == kind then Some(conditions[0])
    else Find(conditions[1..], kind)
  }

  predicate ShouldUpdate(next: Condition, existing: Condition) {
    next.reason != existing.reason || next.message != existing.message
  }

  function Updated(next: Condition, existing: Condition, now: int): Condition {
    if !ShouldUpdate(next, existing) then existing
    else Condition(existing.kind, next.status, next.reason, next.message,
                   if existing.status != next.status then now else existing.lastTransition)
  }

  /** The list after setting a condition at the given time. */
  function WithCondition(condition: Condition, conditions: seq<Condition>, now: int): seq<Condition> {
    if conditions == [] then [condition.(lastTransition := now)]
    else if conditions[0].kind == condition.kind then [Updated(condition, conditions[0], now)] + conditions[1..]
    else [conditions[0]] + WithCondition(condition, conditions[1..], now)
  }

  method FindCondition(conditions: seq<Condition>, kind: Kind) returns (index: Option<nat>)
    ensures index.None? ==> forall j :: 0 <= j < |conditions| ==> conditions[j].kind != kind
    ensures index.Some? ==> index.value < |conditions| && conditions[index.value].kind == kind
    ensures index.Some? ==> forall j :: 0 <= j < index.value ==> conditions[j].kind != kind
  {
    for i := 0 to |conditions|
      invariant forall j :: 0 <= j < i ==> conditions[j].kind != kind
    {
      if conditions[i].kind == kind {
        return Some(i);
      }
    }
    return None;
  }

  /** Setting a condition touches one place: the first entry of its kind, or the end of the list. */
  lemma {:induction false} WithConditionAt(c: Condition, conditions: seq<Condition>, now: int, i: nat)
    requires i <= |conditions| && forall j :: 0 <= j < i ==> conditions[j].kind != c.kind
    requires i < |conditions| ==> conditions[i].kind == c.kind
    ensures WithCondition(c, conditions, now) ==
      if i == |conditions| then conditions + [c.(lastTransition := now)]
      else conditions[i := Updated(c, conditions[i], now)]
  {
    if i > 0 {
      WithConditionAt(c, conditions[1..], now, i - 1);
    }
  }

  method SetCondition(condition: Condition, conditions: seq<Condition>, now: int) returns (result: seq<Condition>)
    ensures result == WithCondition(condition, conditions, now)
  {
    var index := FindCondition(conditions, condition.kind);
    WithConditionAt(condition, conditions, now, index.GetOr(|conditions|));
    match index
    case None =>
      result := conditions + [condition.(lastTransition := now)];
    case Some(i) =>
      var existing := conditions[i];
      if ShouldUpdate(condition, existing) {
        if existing.status != condition.status {
          existing := existing.(lastTransition := now);
        }
        existing := existing.(status := condition.status, reason := condition.reason, message := condition.message);
      }
      result := conditions[i := existing];
  }

  // ---- Any number of calls ----

  predicate UniqueKinds(conditions: seq<Condition>) {
    forall i, j :: 0 <= i < j < |conditions| ==> conditions[i].kind != conditions[j].kind
  }

  /** What the two constructors produce. */
  predicate Constructed(c: Condition) {
    c.kind == MachineCreation &&
    ((c.status == True && c.reason == Succeeded) || (c.status == False && c.reason == Failed))
  }

  datatype Call = Call(condition: Condition, now: int)

  function AfterCalls(conditions: seq<Condition>, calls: seq<Call>): seq<Condition> {
    if calls == [] then conditions
    else
      var n := |calls| - 1;
      WithCondition(calls[n].condition, AfterCalls(conditions, calls[..n]), calls[n].now)
  }

  lemma {:induction false} FindFinds(conditions: seq<Condition>, kind: Kind)
    ensures Find(conditions, kind).Some? <==> exists i :: 0 <= i < |conditions| && conditions[i].kind == kind
    ensures Find(conditions, kind).Some? ==>
      Find(conditions, kind).value in conditions && Find(conditions, kind).value.kind == kind
  {
    if conditions != [] {
      FindFinds(conditions[1..], kind);
      if i :| 1 <= i < |conditions| && conditions[i].kind == kind {
        assert conditions[1..][i - 1].kind == kind;
      }
    }
  }

  /** One call: other kinds keep their entry, and the entry of the kind is the updated one. */
  lemma {:induction false} FindAfterOneCall(c: Condition, conditions: seq<Condition>, now: int, kind: Kind)
    ensures Find(WithCondition(c, conditions, now), kind) ==
      if kind != c.kind then Find(conditions, kind)
      else match Find(conditions, kind)
           case None => Some(c.(lastTransition := now))
           case Some(existing) => Some(Updated(c, existing, now))
  {
    if conditions != [] && conditions[0].kind != c.kind {
      FindAfterOneCall(c, conditions[1..], now, kind);
    }
  }

  /** One call: kinds stay unique. */
  lemma UniqueAfterOneCall(c: Condition, conditions: seq<Condition>, now: int)
    requires UniqueKinds(conditions)
    ensures UniqueKinds(WithCondition(c, conditions, now))
  {
    if i :| 0 <= i < |conditions| && conditions[i].kind == c.kind {
      WithConditionAt(c, conditions, now, i);
    } else {
      WithConditionAt(c, conditions, now, |conditions|);
    }
  }

  /** Over any sequence of completed calls with the two constructors: kinds stay unique, every other condition
      stays untouched, and the status is that of the last call although only reason and message are compared. */
  lemma {:induction false} StatusIsThatOfTheLastCall(conditions: seq<Condition>, calls: seq<Call>, other: Kind)
    requires UniqueKinds(conditions)
    requires forall i :: 0 <= i < |calls| ==> Constructed(calls[i].condition)
    requires Find(conditions, MachineCreation).Some? ==> Constructed(Find(conditions, MachineCreation).value)
    ensures var after := AfterCalls(conditions, calls);
      && UniqueKinds(after)
      && (other != MachineCreation ==> Find(after, other) == Find(conditions, other))
      && (Find(after, MachineCreation).Some? ==> Constructed(Find(after, MachineCreation).value))
      && (calls != [] ==>
            && Find(after, MachineCreation).Some?
            && var last, entry := calls[|calls| - 1].condition, Find(after, MachineCreation).value;
               entry.status == last.status && entry.reason == last.reason && entry.message == last.message)
  {
    if calls != [] {
      var n := |calls| - 1;
      StatusIsThatOfTheLastCall(conditions, calls[..n], other);
      var before := AfterCalls(conditions, calls[..n]);
      UniqueAfterOneCall(calls[n].condition, before, calls[n].now);
      FindAfterOneCall(calls[n].condition, before, calls[n].now, other);
      FindAfterOneCall(calls[n].condition, before, calls[n].now, MachineCreation);
      FindFinds(before, MachineCreation);
    }
  }

  /** The transition time moves exactly when the status does, and then to the time of the call. */
  lemma TransitionTimeFollowsStatus(c: Condition, conditions: seq<Condition>, now: int)
    requires Find(conditions, c.kind).Some?
    ensures var before := Find(conditions, c.kind).value;
      var after := Find(WithCondition(c, conditions, now), c.kind);
      && after.Some?
      && after.value.lastTransition == if after.value.status == before.status then before.lastTransition else now
  {
    FindAfterOneCall(c, conditions, now, c.kind);
  }

  /** For an arbitrary list, the status follows the call unless reason and message agree while the status does not. */
  lemma StatusFollowsExactlyWhen(c: Condition, conditions: seq<Condition>, now: int)
    ensures var after := Find(WithCondition(c, conditions, now), c.kind);
      var before := Find(conditions, c.kind);
      && after.Some?
      && (after.value.status != c.status <==>
            before.Some? && before.value.reason == c.reason && before.value.message == c.message
              && before.value.status != c.status)
  {
    FindAfterOneCall(c, conditions, now, c.kind);
  }
}
