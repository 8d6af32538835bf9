/** What a log says about instances and dedicated hosts. */
module Effects {
  import opened Wrappers
  import opened Cloud
  import opened Launch

  function One(b: bool): nat {
    if b then 1 else 0
  }

  predicate Allocates(e: Event, host: string) {
    e.AllocateHosts? && AllocatedID(e.hosts) == Some(host)
  }

  predicate Releases(e: Event, host: string) {
    e.ReleaseHosts? && e.host == host && ReleaseSucceeded(e.released)
  }

  /** A RunInstances call that started instances. */
  predicate Starts(e: Event) {
    e.RunInstances? && e.run.Reservation? && e.run.instances != []
  }

  /** How often AWS reported the host as allocated. */
  function Allocations(log: Log, host: string): nat {
    if log == [] then 0 else Allocations(log[..|log| - 1], host) + One(Allocates(log[|log| - 1], host))
  }

  /** How often the host was released successfully. */
  function Released(log: Log, host: string): nat {
    if log == [] then 0 else Released(log[..|log| - 1], host) + One(Releases(log[|log| - 1], host))
  }

  function AllocateCalls(log: Log): nat {
    if log == [] then 0 else AllocateCalls(log[..|log| - 1]) + One(log[|log| - 1].AllocateHosts?)
  }

  function ReleaseCalls(log: Log): nat {
    if log == [] then 0 else ReleaseCalls(log[..|log| - 1]) + One(log[|log| - 1].ReleaseHosts?)
  }

  function Launches(log: Log): nat {
    if log == [] then 0 else Launches(log[..|log| - 1]) + One(Starts(log[|log| - 1]))
  }

  function TerminateCalls(log: Log): nat {
    if log == [] then 0 else TerminateCalls(log[..|log| - 1]) + One(log[|log| - 1].TerminateInstances?)
  }

  /** All the counts that matter, for one host. */
  datatype Counts = Counts(allocations: int, released: int, allocateCalls: int, releaseCalls: int, launches: int,
                           terminateCalls: int)

  function CountsOf(log: Log, host: string): Counts {
    Counts(Allocations(log, host), Released(log, host), AllocateCalls(log), ReleaseCalls(log), Launches(log),
      TerminateCalls(log))
  }

  function Added(log: Log, next: Log, host: string): Counts {
    var a, b := CountsOf(log, host), CountsOf(next, host);
    Counts(b.allocations - a.allocations, b.released - a.released, b.allocateCalls - a.allocateCalls,
           b.releaseCalls - a.releaseCalls, b.launches - a.launches, b.terminateCalls - a.terminateCalls)
  }

  const NOTHING := Counts(0, 0, 0, 0, 0, 0)

  lemma AddedByEvent(log: Log, e: Event, host: string)
    ensures Added(log, log + [e], host) ==
      Counts(One(Allocates(e, host)), One(Releases(e, host)), One(e.AllocateHosts?), One(e.ReleaseHosts?),
        One(Starts(e)), One(e.TerminateInstances?))
  {
    assert (log + [e])[..|log|] == log;
  }

  // ---- Requests that change no instance and no host ----

  predicate Harmless(e: Event) {
    !e.AllocateHosts? && !e.ReleaseHosts? && !e.RunInstances? && !e.TerminateInstances?
  }

  /** The log grew by harmless requests only. */
  predicate Quiet(log: Log, next: Log) {
    log <= next && forall k :: |log| <= k < |next| ==> Harmless(next[k])
  }

  lemma QuietTwice(a: Log, b: Log, c: Log)
    requires Quiet(a, b) && Quiet(b, c)
    ensures Quiet(a, c)
  {
    forall k | |a| <= k < |c|
      ensures Harmless(c[k])
    {
      if k < |b| {
        assert c[k] == b[k];
      }
    }
  }

  lemma {:induction false} QuietAddsNothing(log: Log, next: Log, host: string)
    requires Quiet(log, next)
    ensures Added(log, next, host) == NOTHING
    decreases |next|
  {
    if |next| == |log| {
      assert next == log;
    } else {
      var n := |next| - 1;
      assert next == next[..n] + [next[n]];
      QuietAddsNothing(log, next[..n], host);
      AddedByEvent(next[..n], next[n], host);
    }
  }
}
