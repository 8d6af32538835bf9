/** The cache of instance types under its read/write lock, for any number of threads and any interleaving
    (pkg/actuators/machineset/ec2_instance_types.go). */
module InstanceTypesCache {
  import opened Wrappers
  import opened InstanceTypes

  /** Times are in nanoseconds. */
  const DAY := 24 * 3600 * 1_000_000_000

  type Types = map<string, InstanceType>

  datatype Region = Region(types: Types, lastUpdate: int)

  /** A GetInstanceType call and the time at which it began. */
  datatype Call = Call(cacheID: string, name: string, start: int)

  datatype Answer = Found(info: InstanceType) | NotFound | RefreshFailed

  /** Where a thread is. The lock it holds, if any, is given behind each point. */
  datatype Thread =
    | WantsRead(call: Call)              // none
    | Checks(call: Call)                 // read
    | FoundStale(call: Call)             // read
    | WantsWrite(call: Call)             // none
    | AwaitsReaders(call: Call)          // none, but announced: new readers have to wait
    | Rechecks(call: Call)               // write
    | Fetches(call: Call)                // write
    | Stores(call: Call, types: Types)   // write
    | EndsRefresh(call: Call, ok: bool)  // write
    | WantsReadAgain(call: Call)         // none
    | Reads(call: Call)                  // read
    | Leaves(call: Call, answer: Answer) // read
    | Done(call: Call, answer: Answer)   // none

  predicate HoldsRead(t: Thread) {
    t.Checks? || t.FoundStale? || t.Reads? || t.Leaves?
  }

  predicate HoldsWrite(t: Thread) {
    t.Rechecks? || t.Fetches? || t.Stores? || t.EndsRefresh?
  }

  /** A successful refresh, as history. */
  datatype Refresh = Refresh(cacheID: string, types: Types, at: int)

  datatype State = State(
    cache: map<string, Region>,
    readers: set<nat>,
    announced: Option<nat>,
    writer: Option<nat>,
    now: int,
    threads: map<nat, Thread>,
    history: seq<Refresh>
  )

  datatype Action =
    | Begin(id: nat, cacheID: string, name: string)
    | TakeRead(id: nat)
    | Check(id: nat)
    | LeaveStale(id: nat)
    | Announce(id: nat)
    | TakeWrite(id: nat)
    | Recheck(id: nat)
    | FetchFails(id: nat)
    | FetchSucceeds(id: nat, types: Types)
    | Store(id: nat)
    | LeaveRefresh(id: nat)
    | Read(id: nat)
    | Leave(id: nat)
    | Tick(elapsed: nat)

  /** isCacheFresh. */
  predicate IsFresh(cache: map<string, Region>, cacheID: string, now: int) {
    cacheID in cache && cache[cacheID].lastUpdate > now - DAY
  }

  predicate Fresh(s: State, cacheID: string) {
    IsFresh(s.cache, cacheID, s.now)
  }

  function Lookup(types: Types, name: string): Answer {
    if name in types then Found(types[name]) else NotFound
  }


  /** When an action may happen: the thread is there, and a lock it takes is free for it. A writer first announces
      itself, one at a time, which keeps new readers out, and then waits for the readers inside to leave. */
  predicate Enabled(s: State, a: Action) {
    match a
    case Begin(id, _, _) => id !in s.threads || s.threads[id].Done?
    case TakeRead(id) =>
      && id in s.threads && (s.threads[id].WantsRead? || s.threads[id].WantsReadAgain?)
      && s.writer.None? && s.announced.None?
    case Check(id) => id in s.threads && s.threads[id].Checks?
    case LeaveStale(id) => id in s.threads && s.threads[id].FoundStale?
    case Announce(id) => id in s.threads && s.threads[id].WantsWrite? && s.writer.None? && s.announced.None?
    case TakeWrite(id) => id in s.threads && s.threads[id].AwaitsReaders? && s.readers == {}
    case Recheck(id) => id in s.threads && s.threads[id].Rechecks?
    case FetchFails(id) => id in s.threads && s.threads[id].Fetches?
    case FetchSucceeds(id, types) => id in s.threads && s.threads[id].Fetches? && types != map[]
    case Store(id) => id in s.threads && s.threads[id].Stores?
    case LeaveRefresh(id) => id in s.threads && s.threads[id].EndsRefresh?
    case Read(id) => id in s.threads && s.threads[id].Reads?
    case Leave(id) => id in s.threads && s.threads[id].Leaves?
    case Tick(_) => true
  }

  function Move(s: State, id: nat, t: Thread): State {
    s.(threads := s.threads[id := t])
  }

  function Next(s: State, a: Action): State
    requires Enabled(s, a)
  {
    match a
    case Begin(id, cacheID, name) => Move(s, id, WantsRead(Call(cacheID, name, s.now)))
    case TakeRead(id) =>
      var t := s.threads[id];
      Move(s.(readers := s.readers + {id}), id, if t.WantsRead? then Checks(t.call) else Reads(t.call))
    case Check(id) =>
      var call := s.threads[id].call;
      Move(s, id, if Fresh(s, call.cacheID) then Reads(call) else FoundStale(call))
    case LeaveStale(id) => Move(s.(readers := s.readers - {id}), id, WantsWrite(s.threads[id].call))
    case Announce(id) => Move(s.(announced := Some(id)), id, AwaitsReaders(s.threads[id].call))
    case TakeWrite(id) => Move(s.(announced := None, writer := Some(id)), id, Rechecks(s.threads[id].call))
    case Recheck(id) =>
      var call := s.threads[id].call;
      Move(s, id, if Fresh(s, call.cacheID) then EndsRefresh(call, true) else Fetches(call))
    case FetchFails(id) => Move(s, id, EndsRefresh(s.threads[id].call, false))
    case FetchSucceeds(id, types) => Move(s, id, Stores(s.threads[id].call, types))
    case Store(id) =>
      var t := s.threads[id];
      var stored := s.(cache := s.cache[t.call.cacheID := Region(t.types, s.now)],
                       history := s.history + [Refresh(t.call.cacheID, t.types, s.now)]);
      Move(stored, id, EndsRefresh(t.call, true))
    case LeaveRefresh(id) =>
      var t := s.threads[id];
      Move(s.(writer := None), id, if t.ok then WantsReadAgain(t.call) else Done(t.call, RefreshFailed))
    case Read(id) =>
      var call := s.threads[id].call;
      Move(s, id, Leaves(call, if call.cacheID in s.cache
        then Lookup(s.cache[call.cacheID].types, call.name) else NotFound))
    case Leave(id) => Move(s.(readers := s.readers - {id}), id, Done(s.threads[id].call, s.threads[id].answer))
    case Tick(elapsed) => s.(now := s.now + elapsed)
  }

  predicate Init(s: State) {
    s.cache == map[] && s.readers == {} && s.announced == None && s.writer == None && s.threads == map[]
      && s.history == []
  }

  // ---- The invariant ----

  /** The last successful refresh for a cache ID. */
  function LastRefresh(history: seq<Refresh>, cacheID: string): Option<Refresh> {
    if history == [] then None
    else if history[|history| - 1].cacheID == cacheID then Some(history[|history| - 1])
    else LastRefresh(history[..|history| - 1], cacheID)
  }

  /** The region's data in the cache are no older than a day, measured when the call began. */
  predicate FreshFor(s: State, call: Call) {
    call.cacheID in s.cache && s.cache[call.cacheID].lastUpdate > call.start - DAY
  }

  /** The entry of that name, or that there is none. */
  predicate Answers(answer: Answer, types: Types, name: string) {
    if name in types then answer == Found(types[name]) else answer == NotFound
  }

  /** The answer is what some refresh returned that finished less than a day before the call began, or later. */
  predicate Justified(history: seq<Refresh>, call: Call, answer: Answer) {
    exists k :: 0 <= k < |history| && history[k].cacheID == call.cacheID
                && history[k].at > call.start - DAY && Answers(answer, history[k].types, call.name)
  }

  ghost predicate LocksInv(s: State) {
    && (s.writer.Some? ==> s.readers == {} && s.announced.None?)
    && (forall id :: id in s.readers <==> id in s.threads && HoldsRead(s.threads[id]))
    && (forall id :: s.writer == Some(id) <==> id in s.threads && HoldsWrite(s.threads[id]))
    && (forall id :: s.announced == Some(id) <==> id in s.threads && s.threads[id].AwaitsReaders?)
  }

  /** The cache is what the last successful refresh of each ID returned. */
  ghost predicate CacheInv(s: State) {
    && (forall c :: c in s.cache <==> LastRefresh(s.history, c).Some?)
    && (forall c :: c in s.cache ==>
          var last := LastRefresh(s.history, c).value;
          s.cache[c] == Region(last.types, last.at) && last.at <= s.now)
  }

  /** Refreshes of one ID are at least a day apart. */
  predicate SpacedInv(history: seq<Refresh>) {
    forall i, j :: 0 <= i < j < |history| && history[i].cacheID == history[j].cacheID ==>
      history[j].at - history[i].at >= DAY
  }

  predicate ThreadInv(s: State, t: Thread) {
    && t.call.start <= s.now
    && (t.Reads? || t.WantsReadAgain? || (t.EndsRefresh? && t.ok) ==> FreshFor(s, t.call))
    && (t.Fetches? || t.Stores? ==> !Fresh(s, t.call.cacheID))
    && (t.Leaves? || (t.Done? && t.answer != RefreshFailed) ==> Justified(s.history, t.call, t.answer))
  }

  ghost predicate Inv(s: State) {
    && LocksInv(s) && CacheInv(s) && SpacedInv(s.history)
    && (forall id :: id in s.threads ==> ThreadInv(s, s.threads[id]))
  }

  // ---- Every step keeps it ----

  lemma LastRefreshOfAppend(history: seq<Refresh>, r: Refresh, cacheID: string)
    ensures LastRefresh(history + [r], cacheID) == if r.cacheID == cacheID
      then Some(r) else LastRefresh(history, cacheID)
  {
    assert (history + [r])[..|history|] == history;
  }

  lemma {:induction false} LastRefreshIsLast(history: seq<Refresh>, cacheID: string)
    requires SpacedInv(history)
    ensures forall k :: 0 <= k < |history| && history[k].cacheID == cacheID ==>
      LastRefresh(history, cacheID).Some? && history[k].at <= LastRefresh(history, cacheID).value.at
    ensures LastRefresh(history, cacheID).Some? ==>
      exists k :: 0 <= k < |history| && history[k] == LastRefresh(history, cacheID).value
        && history[k].cacheID == cacheID
  {
    if history != [] {
      var n := |history| - 1;
      if history[n].cacheID != cacheID {
        LastRefreshIsLast(history[..n], cacheID);
        if LastRefresh(history, cacheID).Some? {
          var k :| 0 <= k < n && history[..n][k] == LastRefresh(history, cacheID).value
            && history[..n][k].cacheID == cacheID;
          assert history[k] == LastRefresh(history, cacheID).value;
        }
        forall k | 0 <= k < |history| && history[k].cacheID == cacheID
          ensures LastRefresh(history, cacheID).Some? && history[k].at <= LastRefresh(history, cacheID).value.at
        {
          assert history[..n][k] == history[k];
        }
      }
    }
  }

  lemma JustifiedLater(history: seq<Refresh>, r: Refresh, call: Call, answer: Answer)
    requires Justified(history, call, answer)
    ensures Justified(history + [r], call, answer)
  {
    var k :| 0 <= k < |history| && history[k].cacheID == call.cacheID
             && history[k].at > call.start - DAY && Answers(answer, history[k].types, call.name);
    assert (history + [r])[k] == history[k];
  }

  /** The only step that writes the cache happens under the exclusive lock and never turns a region's clock back. */
  lemma WritesAreExclusive(s: State, a: Action, cacheID: string)
    requires Inv(s) && Enabled(s, a)
    ensures var next := Next(s, a);
      && (next.cache != s.cache ==> a.Store? && s.writer == Some(a.id) && s.readers == {})
      && (cacheID in s.cache ==> cacheID in next.cache && s.cache[cacheID].lastUpdate <= next.cache[cacheID].lastUpdate)
      && (next.history != s.history ==> a.Store? && !Fresh(s, s.threads[a.id].call.cacheID))
  {
    if a.Store? {
      assert ThreadInv(s, s.threads[a.id]);
    }
  }

  predicate MovesLock(a: Action) {
    a.TakeRead? || a.LeaveStale? || a.Announce? || a.TakeWrite? || a.LeaveRefresh? || a.Leave?
  }

  lemma MovingKeepsLocks(s: State, a: Action)
    requires LocksInv(s) && Enabled(s, a) && MovesLock(a)
    ensures LocksInv(Next(s, a))
  {
  }

  lemma KeepsLocks(s: State, a: Action)
    requires LocksInv(s) && Enabled(s, a)
    ensures LocksInv(Next(s, a))
  {
    hide Fresh;
    if MovesLock(a) {
      MovingKeepsLocks(s, a);
    }
  }

  lemma StoreKeepsCache(s: State, id: nat)
    requires CacheInv(s) && SpacedInv(s.history) && Enabled(s, Store(id)) && ThreadInv(s, s.threads[id])
    ensures CacheInv(Next(s, Store(id))) && SpacedInv(Next(s, Store(id)).history)
  {
    var next := Next(s, Store(id));
    var t := s.threads[id];
    var r := Refresh(t.call.cacheID, t.types, s.now);
    forall c
      ensures LastRefresh(next.history, c) == if r.cacheID == c then Some(r) else LastRefresh(s.history, c)
    {
      LastRefreshOfAppend(s.history, r, c);
    }
    LastRefreshIsLast(s.history, t.call.cacheID);
  }

  lemma StoreKeepsThread(s: State, id: nat, other: nat)
    requires LocksInv(s) && Enabled(s, Store(id)) && other in s.threads && ThreadInv(s, s.threads[other])
    ensures ThreadInv(Next(s, Store(id)), Next(s, Store(id)).threads[other])
  {
    hide Justified;
    assert HoldsWrite(s.threads[id]) && (HoldsWrite(s.threads[other]) ==> other == id);
    var t, u := s.threads[id], s.threads[other];
    if u.Leaves? || (u.Done? && u.answer != RefreshFailed) {
      JustifiedLater(s.history, Refresh(t.call.cacheID, t.types, s.now), u.call, u.answer);
    }
  }

  lemma StoreKeepsInv(s: State, id: nat)
    requires Inv(s) && Enabled(s, Store(id))
    ensures Inv(Next(s, Store(id)))
  {
    KeepsLocks(s, Store(id));
    StoreKeepsCache(s, id);
    hide LocksInv, CacheInv, SpacedInv, ThreadInv;
    forall other | other in Next(s, Store(id)).threads
      ensures ThreadInv(Next(s, Store(id)), Next(s, Store(id)).threads[other])
    {
      StoreKeepsThread(s, id, other);
    }
  }

  lemma ReadKeepsInv(s: State, id: nat)
    requires Inv(s) && Enabled(s, Read(id))
    ensures Inv(Next(s, Read(id)))
  {
    hide LocksInv;
    KeepsLocks(s, Read(id));
    var next := Next(s, Read(id));
    var call := s.threads[id].call;
    assert ThreadInv(s, s.threads[id]);
    LastRefreshIsLast(s.history, call.cacheID);
    assert Justified(s.history, call, next.threads[id].answer);
    forall other | other in next.threads
      ensures ThreadInv(next, next.threads[other])
    {
      assert other != id ==> ThreadInv(s, s.threads[other]);
    }
  }

  lemma OthersKeepThreads(s: State, a: Action)
    requires Inv(s) && Enabled(s, a) && !a.Store? && !a.Read?
    ensures var next := Next(s, a);
      forall other :: other in next.threads ==> ThreadInv(next, next.threads[other])
  {
    hide CacheInv, SpacedInv, LocksInv, Justified;
    var next := Next(s, a);
    forall other | other in next.threads
      ensures ThreadInv(next, next.threads[other])
    {
      assert other in s.threads ==> ThreadInv(s, s.threads[other]);
    }
  }

  lemma {:induction false} OthersKeepInv(s: State, a: Action)
    requires Inv(s) && Enabled(s, a) && !a.Store? && !a.Read?
    ensures Inv(Next(s, a))
  {
    hide LocksInv, SpacedInv, ThreadInv, Fresh, Lookup, LastRefresh;
    KeepsLocks(s, a);
    OthersKeepThreads(s, a);
    var next := Next(s, a);
    assert next.cache == s.cache && next.history == s.history && next.now >= s.now;
  }

  lemma StepKeepsInv(s: State, a: Action)
    requires Inv(s) && Enabled(s, a)
    ensures Inv(Next(s, a))
  {
    hide Next, Inv;
    match a
    case Store(id) => StoreKeepsInv(s, id);
    case Read(id) => ReadKeepsInv(s, id);
    case _ => OthersKeepInv(s, a);
  }

  // ---- Runs ----

  predicate Possible(s: State, actions: seq<Action>)
    decreases |actions|
  {
    actions == [] || (Enabled(s, actions[0]) && Possible(Next(s, actions[0]), actions[1..]))
  }

  function Run(s: State, actions: seq<Action>): State
    requires Possible(s, actions)
    decreases |actions|
  {
    if actions == [] then s else Run(Next(s, actions[0]), actions[1..])
  }

  lemma {:induction false} RunKeepsInv(s: State, actions: seq<Action>)
    requires Inv(s) && Possible(s, actions)
    ensures Inv(Run(s, actions))
    decreases |actions|
  {
    if actions != [] {
      StepKeepsInv(s, actions[0]);
      RunKeepsInv(Next(s, actions[0]), actions[1..]);
    }
  }

  /** After any interleaving: no reader shares the lock with a writer, at most one thread is inside a refresh, the
      cache is what the last successful refreshes returned, refreshes of one ID are a day apart, and every answer
      that is not a refresh error comes from a refresh that finished less than a day before the call began, or
      later. */
  lemma {:induction false} CacheIsCorrect(s: State, actions: seq<Action>)
    requires Init(s) && Possible(s, actions)
    ensures var end := Run(s, actions);
      && (forall i, j :: i in end.threads && j in end.threads && HoldsWrite(end.threads[i]) ==>
            !HoldsRead(end.threads[j]) && (HoldsWrite(end.threads[j]) ==> i == j))
      && (forall c :: c in end.cache ==>
            LastRefresh(end.history, c) == Some(Refresh(c, end.cache[c].types, end.cache[c].lastUpdate)))
      && SpacedInv(end.history)
      && (forall id :: id in end.threads && end.threads[id].Done? && end.threads[id].answer != RefreshFailed ==>
            Justified(end.history, end.threads[id].call, end.threads[id].answer))
  {
    RunKeepsInv(s, actions);
    var end := Run(s, actions);
    forall c | c in end.cache
      ensures LastRefresh(end.history, c) == Some(Refresh(c, end.cache[c].types, end.cache[c].lastUpdate))
    {
      LastRefreshIsLast(end.history, c);
    }
    forall id | id in end.threads && end.threads[id].Done? && end.threads[id].answer != RefreshFailed
      ensures Justified(end.history, end.threads[id].call, end.threads[id].answer)
    {
      assert ThreadInv(end, end.threads[id]);
    }
  }

  /** The locks never block for good, although a waiting writer keeps new readers out: as long as a call is under way,
      some thread can take its next step. */
  lemma NeverStuck(s: State, id: nat) returns (a: Action)
    requires Inv(s) && id in s.threads && !s.threads[id].Done?
    ensures Enabled(s, a) && !a.Begin? && !a.Tick?
  {
    if s.writer.Some? {
      a := HolderMoves(s, s.writer.value);
    } else if s.readers != {} {
      var r :| r in s.readers;
      a := HolderMoves(s, r);
    } else if s.announced.Some? {
      a := TakeWrite(s.announced.value);
    } else {
      a := if s.threads[id].WantsWrite? then Announce(id) else TakeRead(id);
    }
  }

  lemma HolderMoves(s: State, id: nat) returns (a: Action)
    requires id in s.threads && (HoldsRead(s.threads[id]) || HoldsWrite(s.threads[id]))
    ensures Enabled(s, a) && !a.Begin? && !a.Tick?
  {
    match s.threads[id]
    case Checks(_) => a := Check(id);
    case FoundStale(_) => a := LeaveStale(id);
    case Rechecks(_) => a := Recheck(id);
    case Fetches(_) => a := FetchFails(id);
    case Stores(_, _) => a := Store(id);
    case EndsRefresh(_, _) => a := LeaveRefresh(id);
    case Reads(_) => a := Read(id);
    case Leaves(_, _) => a := Leave(id);
  }

  /** How many steps of its own a thread has before it at most. */
  function Remaining(t: Thread): nat {
    match t
    case WantsRead(_) => 12
    case Checks(_) => 11
    case FoundStale(_) => 10
    case WantsWrite(_) => 9
    case AwaitsReaders(_) => 8
    case Rechecks(_) => 7
    case Fetches(_) => 6
    case Stores(_, _) => 5
    case EndsRefresh(_, _) => 4
    case WantsReadAgain(_) => 3
    case Reads(_) => 2
    case Leaves(_, _) => 1
    case Done(_, _) => 0
  }

  /** How many of the actions are steps of the given thread. */
  function OwnSteps(actions: seq<Action>, id: nat): nat
    decreases |actions|
  {
    if actions == [] then 0
    else (if !actions[0].Tick? && actions[0].id == id then 1 else 0) + OwnSteps(actions[1..], id)
  }

  /** Whatever the other threads do in between, a call never goes round: it is over after at most twelve steps of
      its own. */
  lemma {:induction false} CallTakesFewSteps(s: State, actions: seq<Action>, id: nat)
    requires id in s.threads && Possible(s, actions)
    requires forall i :: 0 <= i < |actions| ==> !(actions[i].Begin? && actions[i].id == id)
    ensures id in Run(s, actions).threads
    ensures OwnSteps(actions, id) + Remaining(Run(s, actions).threads[id]) <= Remaining(s.threads[id]) <= 12
    decreases |actions|
  {
    if actions != [] {
      var a, next := actions[0], Next(s, actions[0]);
      assert id in next.threads;
      assert if !a.Tick? && a.id == id then Remaining(next.threads[id]) < Remaining(s.threads[id])
             else next.threads[id] == s.threads[id];
      hide Next, Enabled, Remaining;
      forall i | 0 <= i < |actions[1..]| ensures !(actions[1..][i].Begin? && actions[1..][i].id == id) {
        assert actions[1..][i] == actions[i + 1];
      }
      CallTakesFewSteps(next, actions[1..], id);
    }
  }

  // ---- The cache as one thread sees it ----

  class Cache {
    var cache: map<string, Region>

    constructor ()
      ensures cache == map[]
    {
      cache := map[];
    }

    /** Refreshing while nobody else does: the region is replaced by what was fetched, unless it is fresh or the
        fetch failed. */
    method Refresh(cacheID: string, fetched: Result<Types, FetchError>, checked: int, stored: int) returns (ok: bool)
      modifies this
      ensures IsFresh(old(cache), cacheID, checked) ==> ok && cache == old(cache)
      ensures !IsFresh(old(cache), cacheID, checked) && fetched.Err? ==> !ok && cache == old(cache)
      ensures !IsFresh(old(cache), cacheID, checked) && fetched.Ok? ==>
        ok && cache == old(cache)[cacheID := Region(fetched.value, stored)]
    {
      if IsFresh(cache, cacheID, checked) {
        return true;
      }
      if fetched.Err? {
        return false;
      }
      cache := cache[cacheID := Region(fetched.value, stored)];
      return true;
    }

    /** A call without interference, at the times of its first check, its second check and its store: it fetches exactly
        when the region is stale, and answers from what is cached for that region afterwards. */
    method GetInstanceType(cacheID: string, name: string, fetched: Result<Types, FetchError>, first: int, second: int,
                           stored: int)
      returns (answer: Answer)
      requires first <= second <= stored
      modifies this
      ensures answer == RefreshFailed <==> !IsFresh(old(cache), cacheID, first) && fetched.Err?
      ensures cache == if IsFresh(old(cache), cacheID, first) || fetched.Err? then old(cache)
                       else old(cache)[cacheID := Region(fetched.value, stored)]
      ensures answer != RefreshFailed ==>
        IsFresh(cache, cacheID, first) && Answers(answer, cache[cacheID].types, name)
    {
      if !IsFresh(cache, cacheID, first) {
        var ok := Refresh(cacheID, fetched, second, stored);
        if !ok {
          return RefreshFailed;
        }
      }
      if name !in cache[cacheID].types {
        return NotFound;
      }
      return Found(cache[cacheID].types[name]);
    }
  }
}
