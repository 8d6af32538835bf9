/** Access keys do not matter to each other in the region cache (pkg/client/client.go). */
module RegionIsolation {
  import opened Wrappers
  import opened RegionCache
  import opened RegionRuns

  function OnlyFetches(history: seq<Fetch>, key: string): seq<Fetch> {
    if history == [] then []
    else
      var n := |history| - 1;
      OnlyFetches(history[..n], key) + (if history[n].key == key then [history[n]] else [])
  }

  function OnlyMarks(marks: seq<Mark>, key: string): seq<Mark> {
    if marks == [] then []
    else
      var n := |marks| - 1;
      OnlyMarks(marks[..n], key) + (if marks[n].key == key then [marks[n]] else [])
  }

  function OnlyData(data: Data, key: string): Data {
    if key in data then map[key := data[key]] else map[]
  }

  function OnlyFlows(flows: map<nat, Flow>, key: string): map<nat, Flow> {
    map id | id in flows && flows[id].key == key :: flows[id]
  }

  function OnlyCaller(s: State, key: string): Option<nat> {
    if s.caller.Some? && s.caller.value in s.flows && s.flows[s.caller.value].key == key then s.caller else None
  }

  /** What the state holds for one access key: its entry, its client flows and its history. */
  function Only(s: State, key: string): State {
    State(OnlyData(s.data, key), s.now, OnlyCaller(s, key), OnlyFlows(s.flows, key),
          OnlyFetches(s.history, key), OnlyMarks(s.marks, key))
  }

  /** The action is one of a client with this key, or time passing. */
  predicate Concerns(s: State, a: Action, key: string) {
    match a
    case Begin(_, k, _) => k == key
    case Tick(_) => true
    case _ => a.id in s.flows && s.flows[a.id].key == key
  }

  /** The part of a run that concerns one key. */
  function Mine(s: State, actions: seq<Action>, key: string): seq<Action>
    requires Possible(s, actions)
    decreases |actions|
  {
    if actions == [] then []
    else (if Concerns(s, actions[0], key) then [actions[0]] else []) + Mine(Next(s, actions[0]), actions[1..], key)
  }

  lemma OnlyOneMore(history: seq<Fetch>, f: Fetch, marks: seq<Mark>, m: Mark, key: string)
    ensures OnlyFetches(history + [f], key) == OnlyFetches(history, key) + (if f.key == key then [f] else [])
    ensures OnlyMarks(marks + [m], key) == OnlyMarks(marks, key) + (if m.key == key then [m] else [])
  {
    assert (history + [f])[..|history|] == history;
    assert (marks + [m])[..|marks|] == marks;
  }

  lemma OnlyWithFlow(flows: map<nat, Flow>, id: nat, f: Flow, key: string)
    requires id in flows ==> flows[id].key == f.key
    ensures OnlyFlows(flows[id := f], key) == if f.key == key
      then OnlyFlows(flows, key)[id := f] else OnlyFlows(flows, key)
  {
    assert f.key == key ==> OnlyFlows(flows[id := f], key) == OnlyFlows(flows, key)[id := f];
    assert f.key != key ==> OnlyFlows(flows[id := f], key) == OnlyFlows(flows, key);
  }

  lemma OnlyWithEntry(data: Data, k: string, d: RegionData, key: string)
    ensures OnlyData(data[k := d], key) == if k == key then OnlyData(data, key)[k := d] else OnlyData(data, key)
    ensures For(OnlyData(data, key), key) == For(data, key)
  {
  }

  lemma OnlyHas(s: State, id: nat, key: string)
    ensures id in Only(s, key).flows <==> id in s.flows && s.flows[id].key == key
    ensures id in Only(s, key).flows ==> Only(s, key).flows[id] == s.flows[id]
    ensures For(Only(s, key).data, key) == For(s.data, key)
  {
  }

  lemma OwnStepEnabled(s: State, a: Action, key: string)
    requires Enabled(s, a) && Concerns(s, a, key)
    ensures Enabled(Only(s, key), a)
  {
    if !a.Tick? {
      OnlyHas(s, a.id, key);
    }
    hide OnlyFlows, OnlyFetches, OnlyMarks, OnlyData;
  }

  /** The two steps that write the cache. */
  lemma OwnWrite(s: State, a: Action, key: string)
    requires Enabled(s, a) && Concerns(s, a, key) && (a.CallSucceeds? || a.Mark?)
    requires Enabled(Only(s, key), a)
    ensures Next(Only(s, key), a) == Only(Next(s, a), key)
  {
    OnlyHas(s, a.id, key);
    hide OnlyFetches, OnlyMarks, OnlyData, OnlyFlows, For;
    var next, id := Next(s, a), a.id;
    OnlyWithFlow(s.flows, id, next.flows[id], key);
    OnlyWithEntry(s.data, key, next.data[key], key);
    if a.CallSucceeds? {
      OnlyOneMore(s.history, Fetch(key, a.output, s.now), s.marks, Marked(key, "", 0), key);
    } else {
      OnlyOneMore(s.history, Fetch(key, [], 0), s.marks, Marked(key, s.flows[id].region, s.now), key);
    }
  }

  lemma OwnRead(s: State, a: Action, key: string)
    requires Inv(s) && Enabled(s, a) && Concerns(s, a, key) && !a.Tick? && !a.CallSucceeds? && !a.Mark?
    requires Enabled(Only(s, key), a)
    ensures Next(Only(s, key), a) == Only(Next(s, a), key)
  {
    OnlyHas(s, a.id, key);
    hide Validates, OnlyFetches, OnlyMarks, OnlyData, OnlyFlows, For, DataInv, ValidatedInv, SpacedInv, FlowInv;
    OnlyWithFlow(s.flows, a.id, Next(s, a).flows[a.id], key);
  }

  /** A step of a client with the key does the same when no other key is there. */
  lemma OwnStep(s: State, a: Action, key: string)
    requires Inv(s) && Enabled(s, a) && Concerns(s, a, key)
    ensures Enabled(Only(s, key), a) && Next(Only(s, key), a) == Only(Next(s, a), key)
  {
    OwnStepEnabled(s, a, key);
    if a.CallSucceeds? || a.Mark? {
      OwnWrite(s, a, key);
    } else if !a.Tick? {
      OwnRead(s, a, key);
    }
  }

  /** A step of any other client changes nothing of it. */
  lemma OthersStep(s: State, a: Action, key: string)
    requires Inv(s) && Enabled(s, a) && !Concerns(s, a, key)
    ensures Only(Next(s, a), key) == Only(s, key)
  {
    hide Validates, OnlyFetches, OnlyMarks, OnlyFlows, OnlyData, DataInv, ValidatedInv, SpacedInv, FlowInv, For;
    var next, id := Next(s, a), a.id;
    assert next.flows == s.flows[id := next.flows[id]];
    OnlyWithFlow(s.flows, id, next.flows[id], key);
    if a.CallSucceeds? {
      var k := s.flows[id].key;
      OnlyOneMore(s.history, Fetch(k, a.output, s.now), s.marks, Marked(key, "", 0), key);
      OnlyWithEntry(s.data, k, next.data[k], key);
    } else if a.Mark? {
      var k := s.flows[id].key;
      OnlyOneMore(s.history, Fetch(key, [], 0), s.marks, Marked(k, s.flows[id].region, s.now), key);
      OnlyWithEntry(s.data, k, next.data[k], key);
    }
  }

  /** Whatever clients with other keys do in between, a run leaves for one key exactly what it would have left had
      only the clients with that key been there: the same cached answer, marks, calls to AWS and decisions. */
  lemma {:induction false} KeysNeverMatterToEachOther(s: State, actions: seq<Action>, key: string)
    requires Inv(s) && Possible(s, actions)
    ensures Possible(Only(s, key), Mine(s, actions, key))
    ensures Run(Only(s, key), Mine(s, actions, key)) == Only(Run(s, actions), key)
    decreases |actions|
  {
    hide Inv, Enabled, Next, Only, Concerns;
    if actions != [] {
      var a, next := actions[0], Next(s, actions[0]);
      StepKeepsInv(s, a);
      KeysNeverMatterToEachOther(next, actions[1..], key);
      var rest := Mine(next, actions[1..], key);
      if Concerns(s, a, key) {
        OwnStep(s, a, key);
        StepThenRun(Only(s, key), a, rest);
      } else {
        OthersStep(s, a, key);
        assert [] + rest == rest;
      }
    }
  }
}
