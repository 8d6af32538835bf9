/** Runs of client flows over the region cache: what an accepted region has behind it, and a run in which a region
    outlives its listing (pkg/client/client.go). */
module RegionRuns {
  import opened Wrappers
  import opened RegionCache

  lemma StepThenRun(s: State, a: Action, rest: seq<Action>)
    requires Enabled(s, a) && Possible(Next(s, a), rest)
    ensures Possible(s, [a] + rest) && Run(s, [a] + rest) == Run(Next(s, a), rest)
  {
    assert ([a] + rest)[1..] == rest;
  }

  lemma {:induction false} RunInParts(s: State, first: seq<Action>, rest: seq<Action>)
    requires Possible(s, first) && Possible(Run(s, first), rest)
    ensures Possible(s, first + rest) && Run(s, first + rest) == Run(Run(s, first), rest)
    decreases |first|
  {
    hide Enabled, Next;
    if first == [] {
      assert first + rest == rest;
    } else {
      RunInParts(Next(s, first[0]), first[1..], rest);
      assert first + rest == [first[0]] + (first[1..] + rest);
      StepThenRun(s, first[0], first[1..] + rest);
    }
  }

  // ---- What an accepted region has behind it ----

  /** If this client was accepted, its region passed validation on an answer fetched under its key. */
  predicate AcceptedRightly(s: State, id: nat) {
    id in s.flows && s.flows[id].Ends? && s.flows[id].accepted ==>
      PassedUnder(s.history, s.flows[id].key, s.flows[id].region)
  }

  lemma StepAcceptsRightly(s: State, a: Action, id: nat)
    requires Inv(s) && Enabled(s, a) && AcceptedRightly(s, id) && a != Resolve(id, Known)
    ensures AcceptedRightly(Next(s, a), id)
  {
    hide Validates, Listed;
    if a.CallSucceeds? {
      var fetch := Fetch(s.flows[a.id].key, a.output, s.now);
      if id in s.flows && s.flows[id].Ends? && s.flows[id].accepted {
        PassedLater(s.history, fetch, s.flows[id].key, s.flows[id].region);
      }
    } else if (a.Ask? || a.Mark?) && a.id == id {
      assert FlowInv(s, s.flows[id]);
    }
  }

  /** In every run: a client that is accepted without its region being known to the SDK has a region that passed
      validation on an answer that AWS gave under the key of that client. */
  lemma {:induction false} AcceptedClientsPassed(s: State, actions: seq<Action>, id: nat)
    requires Inv(s) && Possible(s, actions) && AcceptedRightly(s, id)
    requires Resolve(id, Known) !in actions
    ensures AcceptedRightly(Run(s, actions), id)
    decreases |actions|
  {
    hide Inv, Enabled, Next, AcceptedRightly;
    if actions != [] {
      assert actions[0] in actions && forall a :: a in actions[1..] ==> a in actions;
      StepKeepsInv(s, actions[0]);
      StepAcceptsRightly(s, actions[0], id);
      AcceptedClientsPassed(Next(s, actions[0]), actions[1..], id);
    }
  }

  // ---- A region that outlives its listing ----

  /** A client whose region neither the SDK nor the cache knows, from its first look at the cache to its mark. */
  function ValidatingActions(id: nat, key: string, region: string, output: Output): seq<Action> {
    [Begin(id, key, region)] + ([Ask(id)] + ([Resolve(id, Unknown)] + ([Request(id)] + ([CallSucceeds(id, output)]
    + ([Validate(id)] + ([Mark(id)] + []))))))
  }

  function AfterValidating(s: State, id: nat, key: string, region: string, output: Output): State {
    State(WithValidated(WithOutput(s.data, key, output, s.now), key, region, s.now), s.now, None,
          s.flows[id := Ends(key, region, true)], s.history + [Fetch(key, output, s.now)],
          s.marks + [Marked(key, region, s.now)])
  }

  lemma {:induction false} ValidatingRun(s: State, id: nat, key: string, region: string, output: Output)
    requires s.caller == None && id !in s.flows
    requires Cached(s.data, key, s.now).None? && !Validated(s.data, key, region, s.now) && Validates(output, region)
    ensures var actions := ValidatingActions(id, key, region, output);
      Possible(s, actions) && Run(s, actions) == AfterValidating(s, id, key, region, output)
  {
    hide Validates, Listed, Possible, Run, Cached, Validated;
    var s1 := Next(s, Begin(id, key, region));
    var s2 := Next(s1, Ask(id));
    var s3 := Next(s2, Resolve(id, Unknown));
    var s4 := Next(s3, Request(id));
    var s5 := Next(s4, CallSucceeds(id, output));
    var s6 := Next(s5, Validate(id));
    var s7 := Next(s6, Mark(id));
    assert s7.flows == s.flows[id := Ends(key, region, true)];
    assert s7 == AfterValidating(s, id, key, region, output);
    hide Next, Enabled, AfterValidating;
    var t6: seq<Action> := [Mark(id)] + [];
    var t5 := [Validate(id)] + t6;
    var t4 := [CallSucceeds(id, output)] + t5;
    var t3 := [Request(id)] + t4;
    var t2 := [Resolve(id, Unknown)] + t3;
    var t1 := [Ask(id)] + t2;
    NoActions(s7);
    StepThenRun(s6, Mark(id), []);
    StepThenRun(s5, Validate(id), t6);
    StepThenRun(s4, CallSucceeds(id, output), t5);
    StepThenRun(s3, Request(id), t4);
    StepThenRun(s2, Resolve(id, Unknown), t3);
    StepThenRun(s1, Ask(id), t2);
    StepThenRun(s, Begin(id, key, region), t1);
  }

  lemma NoActions(s: State)
    ensures Possible(s, []) && Run(s, []) == s
  {
  }

  const MINUTE := 60 * 1_000_000_000

  /** Client 0 gets region b validated. After 31 minutes client 1 asks for region c, and AWS no longer lists b.
      After 29 more minutes client 2 comes with b. */
  function OutlivingActions(key: string, b: string, c: string): seq<Action> {
    ValidatingActions(0, key, b, [Some(Region(b, OptedInOrNotRequired))])
    + ([Tick(31 * MINUTE)]
    + (ValidatingActions(1, key, c, [Some(Region(c, OptedInOrNotRequired))])
    + ([Tick(29 * MINUTE)] + ([Begin(2, key, b)] + ([Ask(2)] + [])))))
  }

  /** The two validations and the waits, from an empty cache. */
  lemma {:induction false} TwoValidations(start: State, key: string, b: string, c: string) returns (end: State)
    requires Init(start) && start.now == 0 && b != c
    ensures var first, second := [Some(Region(b, OptedInOrNotRequired))], [Some(Region(c, OptedInOrNotRequired))];
      var s1 := AfterValidating(start, 0, key, b, first);
      && Possible(start, ValidatingActions(0, key, b, first)) && Run(start, ValidatingActions(0, key, b, first)) == s1
      && var s2 := Next(s1, Tick(31 * MINUTE));
      && Possible(s2, ValidatingActions(1, key, c, second)) && Run(s2, ValidatingActions(1, key, c, second)) == end
      && end.now == 31 * MINUTE && end.caller == None && 2 !in end.flows
      && end.history == [Fetch(key, first, 0), Fetch(key, second, 31 * MINUTE)]
      && end.marks == [Marked(key, b, 0), Marked(key, c, 31 * MINUTE)]
      && b in For(end.data, key).validated && For(end.data, key).lastUpdated == Some(31 * MINUTE)
  {
    var first, second := [Some(Region(b, OptedInOrNotRequired))], [Some(Region(c, OptedInOrNotRequired))];
    assert Validates(first, b) && Validates(second, c);
    hide Validates, Listed, Possible, Run, ValidatingActions;
    ValidatingRun(start, 0, key, b, first);
    var s1 := AfterValidating(start, 0, key, b, first);
    var s2 := Next(s1, Tick(31 * MINUTE));
    assert s2.history == [Fetch(key, first, 0)] && s2.marks == [Marked(key, b, 0)];
    ValidatingRun(s2, 1, key, c, second);
    end := AfterValidating(s2, 1, key, c, second);
  }

  /** Client 2 is told that its region is valid, an hour after the mark and although the last listing lacks it. */
  lemma {:induction false} RefreshExtendsOtherRegions(start: State, key: string, b: string, c: string)
    requires Init(start) && start.now == 0 && b != c
    ensures var actions := OutlivingActions(key, b, c);
      && Possible(start, actions)
      && var end := Run(start, actions);
         && 2 in end.flows && end.flows[2] == Ends(key, b, true)
         && end.now == 60 * MINUTE && end.marks == [Marked(key, b, 0), Marked(key, c, 31 * MINUTE)]
         && LastFetch(end.history, key).Some? && !Validates(LastFetch(end.history, key).value.output, b)
  {
    var first, second := [Some(Region(b, OptedInOrNotRequired))], [Some(Region(c, OptedInOrNotRequired))];
    assert second[1..] == [] && Listed([], b) == None;
    assert Listed(second, b) == None;
    assert !Validates(second, b);
    hide Validates, Listed, Possible, Run, ValidatingActions, AfterValidating;
    var s1 := AfterValidating(start, 0, key, b, first);
    var s2 := Next(s1, Tick(31 * MINUTE));
    var s3 := TwoValidations(start, key, b, c);
    var s4 := Next(s3, Tick(29 * MINUTE));
    var s5 := Next(s4, Begin(2, key, b));
    var s6 := Next(s5, Ask(2));
    assert s6.flows[2] == Ends(key, b, true) && s6.history == s3.history && s6.marks == s3.marks
      && s6.now == 60 * MINUTE;
    assert LastFetch(s6.history, key) == Some(Fetch(key, second, 31 * MINUTE));
    assert Enabled(s5, Ask(2)) && Enabled(s4, Begin(2, key, b)) && Enabled(s3, Tick(29 * MINUTE))
      && Enabled(s1, Tick(31 * MINUTE));
    hide Next, Enabled, LastFetch;
    NoActions(s6);
    var last := [Tick(29 * MINUTE)] + ([Begin(2, key, b)] + ([Ask(2)] + []));
    StepThenRun(s5, Ask(2), []);
    StepThenRun(s4, Begin(2, key, b), [Ask(2)] + []);
    StepThenRun(s3, Tick(29 * MINUTE), [Begin(2, key, b)] + ([Ask(2)] + []));
    RunInParts(s2, ValidatingActions(1, key, c, second), last);
    StepThenRun(s1, Tick(31 * MINUTE), ValidatingActions(1, key, c, second) + last);
    RunInParts(start, ValidatingActions(0, key, b, first),
               [Tick(31 * MINUTE)] + (ValidatingActions(1, key, c, second) + last));
  }
}
