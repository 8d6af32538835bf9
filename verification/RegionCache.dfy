/** The cache of DescribeRegions answers and of validated regions, kept per access key (pkg/client/client.go). */
module RegionCache {
  import opened Wrappers

  /** Times are in nanoseconds. */
  const EXPIRATION := 30 * 60 * 1_000_000_000
  const DEFAULT_REGION := "us-east-1"

  datatype OptIn = NotOptedIn | OptedInOrNotRequired

  /** A region as DescribeRegions lists it. */
  datatype Region = Region(name: string, optIn: OptIn)

  /** The list may hold nil entries. */
  type Output = seq<Option<Region>>

  datatype CallError = CallError

  /** What is cached for one access key. A zero time is None; the error field of the source is never stored. */
  datatype RegionData = RegionData(output: Option<Output>, validated: set<string>, lastUpdated: Option<int>)

  type Data = map<string, RegionData>

  function For(data: Data, key: string): RegionData {
    if key in data then data[key] else RegionData(None, {}, None)
  }

  predicate Recent(d: RegionData, now: int) {
    d.lastUpdated.Some? && now - d.lastUpdated.value < EXPIRATION
  }

  /** The answer the cache can give without asking AWS. */
  function Cached(data: Data, key: string, now: int): Option<Output> {
    if For(data, key).output.Some? && Recent(For(data, key), now) then For(data, key).output else None
  }

  function WithOutput(data: Data, key: string, output: Output, at: int): Data {
    data[key := For(data, key).(output := Some(output), lastUpdated := Some(at))]
  }

  predicate Validated(data: Data, key: string, region: string, now: int) {
    region in For(data, key).validated && Recent(For(data, key), now)
  }

  function WithValidated(data: Data, key: string, region: string, now: int): Data {
    var d := For(data, key);
    data[key := d.(validated := d.validated + {region},
               lastUpdated := if d.lastUpdated.None? then Some(now) else d.lastUpdated)]
  }

  // ---- Validating a region ----

  /** The first entry with the given name. */
  function Listed(output: Output, region: string): Option<Region> {
    if output == [] then None
    else if output[0].Some? && output[0].value.name == region then output[0]
    else Listed(output[1..], region)
  }

  /** The region is listed, and its first entry is not one that still has to be opted in. */
  predicate Validates(output: Output, region: string) {
    Listed(output, region).Some? && Listed(output, region).value.optIn != NotOptedIn
  }

  /** Position i holds the first entry with this name; nil entries do not count. */
  predicate FirstWithName(output: Output, i: int, region: string) {
    && 0 <= i < |output| && output[i].Some? && output[i].value.name == region
    && forall j :: 0 <= j < i ==> output[j].None? || output[j].value.name != region
  }

  lemma {:induction false} ListedMeaning(output: Output, region: string)
    ensures Listed(output, region).Some? <==> exists i :: FirstWithName(output, i, region)
    ensures forall i :: FirstWithName(output, i, region) ==> Listed(output, region) == output[i]
    ensures Validates(output, region) <==>
      exists i :: FirstWithName(output, i, region) && output[i].value.optIn == OptedInOrNotRequired
  {
    if output != [] && !(output[0].Some? && output[0].value.name == region) {
      ListedMeaning(output[1..], region);
      forall i ensures FirstWithName(output, i, region) <==> FirstWithName(output[1..], i - 1, region) {
        if FirstWithName(output[1..], i - 1, region) {
          forall j | 0 <= j < i ensures output[j].None? || output[j].value.name != region {
            assert j > 0 ==> output[1..][j - 1] == output[j];
          }
        }
      }
      if Listed(output[1..], region).Some? {
        var i :| FirstWithName(output[1..], i, region);
        assert FirstWithName(output, i + 1, region);
      }
    } else if output != [] {
      assert FirstWithName(output, 0, region);
    }
  }

  method ValidateRegion(output: Output, region: string) returns (r: Result<Region, CallError>)
    ensures r.Ok? <==> Validates(output, region)
    ensures r.Ok? <==> exists i :: FirstWithName(output, i, region) && output[i].value.optIn == OptedInOrNotRequired
    ensures r.Ok? ==> Some(r.value) == Listed(output, region)
  {
    ListedMeaning(output, region);
    var found: Option<Region> := None;
    for i := 0 to |output|
      invariant found.None? && Listed(output, region) == Listed(output[i..], region)
    {
      if output[i].Some? && output[i].value.name == region {
        found := output[i];
        break;
      }
      assert output[i..][1..] == output[i + 1..];
    }
    if found.None? {
      return Err(CallError);
    }
    if found.value.optIn == NotOptedIn {
      return Err(CallError);
    }
    return Ok(found.value);
  }

  // ---- The cache object ----

  /** An AWS session: its credentials, if they can be had, and the region requests go to. */
  class Session {
    const key: Result<string, CallError>
    var region: string

    constructor (key: Result<string, CallError>, region: string)
      ensures this.key == key && this.region == region
    {
      this.key, this.region := key, region;
    }

    /** DescribeRegions, answered by the endpoint of the session's current region. */
    method DescribeRegions(endpoint: string -> Result<Output, CallError>) returns (reply: Result<Output, CallError>)
      ensures reply == endpoint(region)
    {
      reply := endpoint(region);
    }
  }

  class Cache {
    var data: Data

    constructor ()
      ensures data == map[]
    {
      data := map[];
    }

    /** The cached answer while it is recent; else one request to the default region, after which the session is back at
        its own region, a failure leaves the cache alone and a success replaces the output and its time. */
    method GetCachedDescribeRegions(session: Session, endpoint: string -> Result<Output, CallError>, asked: int,
                                    answered: int)
      returns (r: Result<Output, CallError>, requested: bool)
      modifies this, session
      ensures session.region == old(session.region)
      ensures session.key.Err? ==> r.Err? && !requested && data == old(data)
      ensures session.key.Ok? ==>
        var key := session.key.value;
        && requested == Cached(old(data), key, asked).None?
        && (!requested ==> r == Ok(Cached(old(data), key, asked).value) && data == old(data))
        && (requested ==>
              && r == endpoint(DEFAULT_REGION)
              && data == if r.Err? then old(data) else WithOutput(old(data), key, r.value, answered))
        && (!requested <==>
              && key in old(data) && old(data)[key].output.Some? && r == Ok(old(data)[key].output.value)
              && old(data)[key].lastUpdated.Some? && asked - old(data)[key].lastUpdated.value < 30 * 60 * 1_000_000_000)
        && (requested && r.Ok? ==>
              && data.Keys == old(data).Keys + {key}
              && (forall k :: k in old(data) && k != key ==> data[k] == old(data)[k])
              && data[key].output == Some(r.value) && data[key].lastUpdated == Some(answered)
              && data[key].validated == if key in old(data) then old(data)[key].validated else {})
    {
      requested := false;
      if session.key.Err? {
        return Err(session.key.error), false;
      }
      var key := session.key.value;
      var regionData := For(data, key);
      if regionData.output.Some? && Recent(regionData, asked) {
        return Ok(regionData.output.value), false;
      }
      var currentRegion := session.region;
      session.region := DEFAULT_REGION;
      r := session.DescribeRegions(endpoint);
      session.region := currentRegion;
      if r.Err? {
        return r, true;
      }
      regionData := regionData.(output := Some(r.value), lastUpdated := Some(answered));
      data := data[key := regionData];
      return r, true;
    }

    method IsRegionValidated(session: Session, region: string, now: int) returns (r: Result<bool, CallError>)
      ensures session.key.Err? ==> r == Err(session.key.error)
      ensures session.key.Ok? ==> r == Ok(Validated(data, session.key.value, region, now))
      ensures r == Ok(true) <==>
        && session.key.Ok? && session.key.value in data && region in data[session.key.value].validated
        && data[session.key.value].lastUpdated.Some?
        && now - data[session.key.value].lastUpdated.value < 30 * 60 * 1_000_000_000
    {
      if session.key.Err? {
        return Err(session.key.error);
      }
      var regionData := For(data, session.key.value);
      if region in regionData.validated && Recent(regionData, now) {
        return Ok(true);
      }
      return Ok(false);
    }

    method SetRegionValidated(session: Session, region: string, now: int) returns (r: Result<(), CallError>)
      modifies this
      ensures session.key.Err? ==> r == Err(session.key.error) && data == old(data)
      ensures session.key.Ok? ==> r == Ok(()) && data == WithValidated(old(data), session.key.value, region, now)
      ensures session.key.Ok? ==>
        var key := session.key.value;
        && data.Keys == old(data).Keys + {key} && (forall k :: k in old(data) && k != key ==> data[k] == old(data)[k])
        && (key in old(data) ==>
              && data[key].output == old(data)[key].output && data[key].validated == old(data)[key].validated + {region}
              && (old(data)[key].lastUpdated.Some? ==> data[key].lastUpdated == old(data)[key].lastUpdated)
              && (old(data)[key].lastUpdated.None? ==> data[key].lastUpdated == Some(now)))
        && (key !in old(data) ==> data[key] == RegionData(None, {region}, Some(now)))
    {
      if session.key.Err? {
        return Err(session.key.error);
      }
      var regionData := For(data, session.key.value);
      regionData := regionData.(validated := regionData.validated + {region});
      if regionData.lastUpdated.None? {
        regionData := regionData.(lastUpdated := Some(now));
      }
      data := data[session.key.value := regionData];
      return Ok(());
    }
  }

  // ---- Clients validating regions, in any interleaving ----

  /** Where a client is in validating its region under its access key. */
  datatype Flow =
    | Asks(key: string, region: string)                     // about to look whether the region is validated
    | Resolves(key: string, region: string)                 // about to look for a known endpoint
    | NeedsOutput(key: string, region: string)              // about to ask for the region list
    | Calls(key: string, region: string)                    // holds the lock, waiting for AWS
    | Validating(key: string, region: string, output: Output)
    | Marks(key: string, region: string)                    // about to mark the region
    | Ends(key: string, region: string, accepted: bool)

  /** A successful DescribeRegions call, as history. */
  datatype Fetch = Fetch(key: string, output: Output, at: int)

  /** A region marked as validated, as history. */
  datatype Mark = Marked(key: string, region: string, at: int)

  datatype State = State(
    data: Data,
    now: int,
    caller: Option<nat>,
    flows: map<nat, Flow>,
    history: seq<Fetch>,
    marks: seq<Mark>
  )

  datatype Endpoint = Known | Unknown | OtherFailure

  datatype Action =
    | Begin(id: nat, key: string, region: string)
    | Ask(id: nat)
    | Resolve(id: nat, endpoint: Endpoint)
    | Request(id: nat)
    | CallFails(id: nat)
    | CallSucceeds(id: nat, output: Output)
    | Validate(id: nat)
    | Mark(id: nat)
    | Tick(elapsed: nat)

  predicate Enabled(s: State, a: Action) {
    match a
    case Begin(id, _, _) => id !in s.flows
    case Ask(id) => id in s.flows && s.flows[id].Asks? && s.caller.None?
    case Resolve(id, _) => id in s.flows && s.flows[id].Resolves?
    case Request(id) => id in s.flows && s.flows[id].NeedsOutput? && s.caller.None?
    case CallFails(id) => id in s.flows && s.flows[id].Calls?
    case CallSucceeds(id, _) => id in s.flows && s.flows[id].Calls?
    case Validate(id) => id in s.flows && s.flows[id].Validating?
    case Mark(id) => id in s.flows && s.flows[id].Marks? && s.caller.None?
    case Tick(_) => true
  }

  function Move(s: State, id: nat, f: Flow): State {
    s.(flows := s.flows[id := f])
  }

  function Next(s: State, a: Action): State
    requires Enabled(s, a)
  {
    match a
    case Begin(id, key, region) => Move(s, id, Asks(key, region))
    case Ask(id) =>
      var f := s.flows[id];
      Move(s, id, if Validated(s.data, f.key, f.region, s.now)
        then Ends(f.key, f.region, true) else Resolves(f.key, f.region))
    case Resolve(id, endpoint) =>
      var f := s.flows[id];
      Move(s, id, match endpoint
                  case Known => Ends(f.key, f.region, true)
                  case Unknown => NeedsOutput(f.key, f.region)
                  case OtherFailure => Ends(f.key, f.region, false))
    case Request(id) =>
      var f := s.flows[id];
      var cached := Cached(s.data, f.key, s.now);
      if cached.Some? then Move(s, id, Validating(f.key, f.region, cached.value))
      else Move(s.(caller := Some(id)), id, Calls(f.key, f.region))
    case CallFails(id) =>
      var f := s.flows[id];
      Move(s.(caller := None), id, Ends(f.key, f.region, false))
    case CallSucceeds(id, output) =>
      var f := s.flows[id];
      Move(s.(data := WithOutput(s.data, f.key, output, s.now), caller := None,
              history := s.history + [Fetch(f.key, output, s.now)]),
           id, Validating(f.key, f.region, output))
    case Validate(id) =>
      var f := s.flows[id];
      Move(s, id, if Validates(f.output, f.region) then Marks(f.key, f.region) else Ends(f.key, f.region, false))
    case Mark(id) =>
      var f := s.flows[id];
      Move(s.(data := WithValidated(s.data, f.key, f.region, s.now),
              marks := s.marks + [Marked(f.key, f.region, s.now)]),
           id, Ends(f.key, f.region, true))
    case Tick(elapsed) => s.(now := s.now + elapsed)
  }

  predicate Init(s: State) {
    s.data == map[] && s.caller == None && s.flows == map[] && s.history == [] && s.marks == []
  }

  // ---- The invariant ----

  predicate FetchedUnder(history: seq<Fetch>, key: string, output: Output) {
    exists k :: 0 <= k < |history| && history[k].key == key && history[k].output == output
  }

  /** The region passed validation on an answer fetched under the key. */
  predicate PassedUnder(history: seq<Fetch>, key: string, region: string) {
    exists k :: 0 <= k < |history| && history[k].key == key && Validates(history[k].output, region)
  }

  function LastFetch(history: seq<Fetch>, key: string): Option<Fetch> {
    if history == [] then None
    else if history[|history| - 1].key == key then Some(history[|history| - 1])
    else LastFetch(history[..|history| - 1], key)
  }

  /** The cached output and time of a key are those of its last successful call. */
  ghost predicate DataInv(s: State) {
    forall key :: var d, last := For(s.data, key), LastFetch(s.history, key);
      && (last.None? ==> d == RegionData(None, {}, None))
      && (last.Some? ==>
            && d.output == Some(last.value.output) && d.lastUpdated == Some(last.value.at)
            && last.value.at <= s.now)
  }

  ghost predicate ValidatedInv(s: State) {
    forall key, region :: region in For(s.data, key).validated ==> PassedUnder(s.history, key, region)
  }

  /** Successful calls under one key are at least half an hour apart. */
  predicate SpacedInv(history: seq<Fetch>) {
    forall i, j :: 0 <= i < j < |history| && history[i].key == history[j].key ==>
      history[j].at - history[i].at >= EXPIRATION
  }

  predicate FlowInv(s: State, f: Flow) {
    && (f.Calls? ==> Cached(s.data, f.key, s.now).None?)
    && (f.Validating? ==> FetchedUnder(s.history, f.key, f.output))
    && (f.Marks? ==> PassedUnder(s.history, f.key, f.region))
  }

  ghost predicate Inv(s: State) {
    && DataInv(s) && ValidatedInv(s) && SpacedInv(s.history)
    && (forall id :: s.caller == Some(id) <==> id in s.flows && s.flows[id].Calls?)
    && (forall id :: id in s.flows ==> FlowInv(s, s.flows[id]))
  }

  lemma LastFetchOfAppend(history: seq<Fetch>, f: Fetch, key: string)
    ensures LastFetch(history + [f], key) == if f.key == key then Some(f) else LastFetch(history, key)
  {
    assert (history + [f])[..|history|] == history;
  }

  lemma {:induction false} LastFetchIsLast(history: seq<Fetch>, key: string)
    requires SpacedInv(history)
    ensures forall k :: 0 <= k < |history| && history[k].key == key ==>
      LastFetch(history, key).Some? && history[k].at <= LastFetch(history, key).value.at
    ensures LastFetch(history, key).Some? ==> FetchedUnder(history, key, LastFetch(history, key).value.output)
  {
    if history != [] {
      var n := |history| - 1;
      if history[n].key != key {
        LastFetchIsLast(history[..n], key);
        if LastFetch(history, key).Some? {
          FetchedLater(history[..n], history[n], key, LastFetch(history, key).value.output);
          assert history[..n] + [history[n]] == history;
        }
        forall k | 0 <= k < |history| && history[k].key == key
          ensures LastFetch(history, key).Some? && history[k].at <= LastFetch(history, key).value.at
        {
          assert history[..n][k] == history[k];
        }
      }
    }
  }

  lemma FetchedLater(history: seq<Fetch>, f: Fetch, key: string, output: Output)
    requires FetchedUnder(history, key, output)
    ensures FetchedUnder(history + [f], key, output)
  {
    var k :| 0 <= k < |history| && history[k].key == key && history[k].output == output;
    assert (history + [f])[k] == history[k];
  }

  lemma PassedLater(history: seq<Fetch>, f: Fetch, key: string, region: string)
    requires PassedUnder(history, key, region)
    ensures PassedUnder(history + [f], key, region)
  {
    var k :| 0 <= k < |history| && history[k].key == key && Validates(history[k].output, region);
    assert (history + [f])[k] == history[k];
  }

  lemma CallSucceedsKeepsInv(s: State, id: nat, output: Output)
    requires Inv(s) && Enabled(s, CallSucceeds(id, output))
    ensures Inv(Next(s, CallSucceeds(id, output)))
  {
    hide Validates, Listed;
    var next := Next(s, CallSucceeds(id, output));
    var f := s.flows[id];
    var fetch := Fetch(f.key, output, s.now);
    assert FlowInv(s, f);
    forall key
      ensures LastFetch(next.history, key) == if f.key == key then Some(fetch) else LastFetch(s.history, key)
    {
      LastFetchOfAppend(s.history, fetch, key);
    }
    LastFetchIsLast(s.history, f.key);
    assert SpacedInv(next.history);
    forall key, region | region in For(next.data, key).validated
      ensures PassedUnder(next.history, key, region)
    {
      PassedLater(s.history, fetch, key, region);
    }
    forall other | other in next.flows
      ensures FlowInv(next, next.flows[other])
    {
      var g := next.flows[other];
      if other == id {
        assert next.history[|s.history|] == fetch;
      } else {
        assert FlowInv(s, g);
        if g.Validating? {
          FetchedLater(s.history, fetch, g.key, g.output);
        } else if g.Marks? {
          PassedLater(s.history, fetch, g.key, g.region);
        }
      }
    }
  }

  lemma RequestKeepsInv(s: State, id: nat)
    requires Inv(s) && Enabled(s, Request(id))
    ensures Inv(Next(s, Request(id)))
  {
    hide Validates, Listed, PassedUnder;
    var next := Next(s, Request(id));
    LastFetchIsLast(s.history, s.flows[id].key);
    forall other | other in next.flows
      ensures FlowInv(next, next.flows[other])
    {
      assert FlowInv(s, s.flows[other]);
    }
  }

  lemma ValidateKeepsInv(s: State, id: nat)
    requires Inv(s) && Enabled(s, Validate(id))
    ensures Inv(Next(s, Validate(id)))
  {
    hide Listed;
    var next := Next(s, Validate(id));
    var f := s.flows[id];
    assert FlowInv(s, f);
    if Validates(f.output, f.region) {
      var k :| 0 <= k < |s.history| && s.history[k].key == f.key && s.history[k].output == f.output;
      assert PassedUnder(s.history, f.key, f.region);
    }
    forall other | other in next.flows
      ensures FlowInv(next, next.flows[other])
    {
      assert FlowInv(s, s.flows[other]);
    }
  }

  lemma MarkKeepsInv(s: State, id: nat)
    requires Inv(s) && Enabled(s, Mark(id))
    ensures Inv(Next(s, Mark(id)))
  {
    hide Validates, Listed;
    var next := Next(s, Mark(id));
    var f := s.flows[id];
    assert FlowInv(s, f);
    assert LastFetch(s.history, f.key).Some? by {
      LastFetchIsLast(s.history, f.key);
    }
    forall other | other in next.flows
      ensures FlowInv(next, next.flows[other])
    {
      assert FlowInv(s, s.flows[other]);
    }
  }

  lemma OthersKeepInv(s: State, a: Action)
    requires Inv(s) && Enabled(s, a) && (a.Begin? || a.Ask? || a.Resolve? || a.CallFails? || a.Tick?)
    ensures Inv(Next(s, a))
  {
    hide Validates, Listed, PassedUnder, FetchedUnder, LastFetch;
    var next := Next(s, a);
    forall other | other in next.flows
      ensures FlowInv(next, next.flows[other])
    {
      assert other in s.flows ==> FlowInv(s, s.flows[other]);
    }
  }

  lemma StepKeepsInv(s: State, a: Action)
    requires Inv(s) && Enabled(s, a)
    ensures Inv(Next(s, a))
  {
    hide Next, Inv;
    match a
    case CallSucceeds(id, output) => CallSucceedsKeepsInv(s, id, output);
    case Request(id) => RequestKeepsInv(s, id);
    case Validate(id) => ValidateKeepsInv(s, id);
    case Mark(id) => MarkKeepsInv(s, id);
    case _ => OthersKeepInv(s, a);
  }

  // ---- Runs ----

  predicate Possible(s: State, actions: seq<Action>)
    decreases |actions|
  {
    actions == [] || (Enabled(s, actions[0]) && Possible(Next(s, actions[0]), actions[1..]))
  }

  function Run(s: State, actions: seq<Action>): State
    requires Possible(s, actions)
    decreases |actions|
  {
    if actions == [] then s else Run(Next(s, actions[0]), actions[1..])
  }

  lemma {:induction false} RunKeepsInv(s: State, actions: seq<Action>)
    requires Inv(s) && Possible(s, actions)
    ensures Inv(Run(s, actions))
    decreases |actions|
  {
    hide Inv, Enabled, Next;
    if actions != [] {
      StepKeepsInv(s, actions[0]);
      RunKeepsInv(Next(s, actions[0]), actions[1..]);
    }
  }

  /** After any interleaving of client flows: successful calls under one key are half an hour apart, the cache holds
      for each key what its last successful call returned, and every region marked valid under a key passed
      validation on an answer that was fetched under that key. */
  lemma {:induction false} RegionCacheIsCorrect(s: State, actions: seq<Action>)
    requires Init(s) && Possible(s, actions)
    ensures var end := Run(s, actions);
      && SpacedInv(end.history) && DataInv(end) && ValidatedInv(end)
  {
    hide Run;
    assert Inv(s);
    RunKeepsInv(s, actions);
  }

  // ---- The shared time ----

  /** What was marked is still marked, and under a key that was asked about before. */
  predicate MarksInv(s: State) {
    forall m :: m in s.marks ==>
      m.at <= s.now && m.region in For(s.data, m.key).validated && LastFetch(s.history, m.key).Some?
  }

  lemma StepKeepsMarks(s: State, a: Action)
    requires Inv(s) && MarksInv(s) && Enabled(s, a)
    ensures MarksInv(Next(s, a))
  {
    hide Validates, Listed, LastFetch;
    match a
    case CallSucceeds(id, output) =>
      var fetch := Fetch(s.flows[id].key, output, s.now);
      forall m | m in s.marks ensures LastFetch(Next(s, a).history, m.key).Some? {
        LastFetchOfAppend(s.history, fetch, m.key);
      }
    case Mark(id) =>
      assert FlowInv(s, s.flows[id]);
      LastFetchIsLast(s.history, s.flows[id].key);
    case _ =>
  }

  lemma {:induction false} RunKeepsMarks(s: State, actions: seq<Action>)
    requires Inv(s) && MarksInv(s) && Possible(s, actions)
    ensures MarksInv(Run(s, actions))
    decreases |actions|
  {
    hide Inv, MarksInv, Enabled, Next;
    if actions != [] {
      StepKeepsInv(s, actions[0]);
      StepKeepsMarks(s, actions[0]);
      RunKeepsMarks(Next(s, actions[0]), actions[1..]);
    }
  }

  predicate AnsweredWithin(history: seq<Fetch>, key: string, after: int, now: int) {
    exists k :: 0 <= k < |history| && history[k].key == key && history[k].at > after && now - history[k].at < EXPIRATION
  }

  /** All regions of a key share the time of its last DescribeRegions answer. In every run, a region whose mark is
      older than the expiration time still counts as validated exactly when an answer came in after the mark and is
      not older than that time, whichever region it was asked for and whatever it lists. */
  lemma {:induction false} ValidationOutlivesExactlyWhen(s: State, actions: seq<Action>, m: Mark)
    requires Init(s) && Possible(s, actions)
    requires m in Run(s, actions).marks && Run(s, actions).now - m.at >= EXPIRATION
    ensures var end := Run(s, actions);
      Validated(end.data, m.key, m.region, end.now) <==> AnsweredWithin(end.history, m.key, m.at, end.now)
  {
    hide Run, Possible, Validates, Listed;
    RunKeepsInv(s, actions);
    RunKeepsMarks(s, actions);
    var end := Run(s, actions);
    LastFetchIsLast(end.history, m.key);
    if Validated(end.data, m.key, m.region, end.now) {
      var last := LastFetch(end.history, m.key).value;
      LastFetchAt(end.history, m.key);
      assert end.now - last.at < EXPIRATION;
    }
  }

  lemma {:induction false} LastFetchAt(history: seq<Fetch>, key: string)
    requires LastFetch(history, key).Some?
    ensures exists k :: 0 <= k < |history| && history[k] == LastFetch(history, key).value && history[k].key == key
  {
    var n := |history| - 1;
    if history[n].key != key {
      LastFetchAt(history[..n], key);
      var k :| 0 <= k < n && history[..n][k] == LastFetch(history[..n], key).value;
      assert history[k] == history[..n][k];
    }
  }
}
