/**
 `getOrSet` of the cache service with any number of interleaved callers. A step is what
 the single-threaded runtime executes between two awaits: the continuation after the
 cache read, the settling of a loader, the settling of the cache write, and the
 resumption of a caller whose computation has ended. Entries may expire or be
 invalidated at any time.
 */
module SingleFlight {
  import opened Text

  type Key = string
  type CallerId = nat
  type CompId = nat

  /** A loaded value; None is null, which the cache read treats as a miss. */
  type Value = Option<string>

  datatype Settled = Fulfilled(value: Value) | Rejected(error: string)

  /** How a loader starts: it returns a promise, or it throws before returning one. */
  datatype Start = Async | SyncThrow(error: string)

  /** A shared computation: loader running, result being cached, or ended. */
  datatype Comp =
    | Loading(key: Key)
    | Storing(key: Key, value: Value)
    | Ended(key: Key, result: Settled, threwSync: bool)

  datatype Caller =
    | Reading(key: Key)
    | Waiting(key: Key, comp: CompId)
    | Done(key: Key, via: Option<CompId>, result: Settled)

  datatype State = State(cache: map<Key, string>, inFlight: map<Key, CompId>,
                         comps: map<CompId, Comp>, callers: map<CallerId, Caller>)

  const EMPTY := State(map[], map[], map[], map[])

  datatype Step =
    | Call(c: CallerId, key: Key)
    /** The cache read of `c` ends with a hit, a (possibly outdated) miss, or an error. */
    | ReadHit(c: CallerId)
    | ReadMiss(c: CallerId, n: CompId, start: Start)
    | ReadFails(c: CallerId, error: string)
    | LoaderSettles(n: CompId, result: Settled)
    | WriteSettles(n: CompId, failure: Option<string>)
    | Resume(c: CallerId)
    | Evict(key: Key)

  function WithCaller(s: State, c: CallerId, caller: Caller): State {
    s.(callers := s.callers[c := caller])
  }

  /** A miss: join the computation in flight, or start one. `n` names a new computation. */
  function AfterMiss(s: State, c: CallerId, key: Key, n: CompId, start: Start): State {
    if key in s.inFlight then WithCaller(s, c, Waiting(key, s.inFlight[key]))
    else
      var comp := match start
        case Async => Loading(key)
        case SyncThrow(error) => Ended(key, Rejected(error), true);
      WithCaller(s.(comps := s.comps[n := comp], inFlight := s.inFlight[key := n]), c, Waiting(key, n))
  }

  /** The computation ends: its `finally` removes the key from the map. */
  function End(s: State, n: CompId, key: Key, result: Settled): State {
    s.(comps := s.comps[n := Ended(key, result, false)], inFlight := s.inFlight - {key})
  }

  function Written(cache: map<Key, string>, key: Key, v: Value): map<Key, string> {
    if v.Some? then cache[key := v.value] else cache - {key}
  }

  function Next(s: State, step: Step): State {
    match step
    case Call(c, key) => if c in s.callers then s else WithCaller(s, c, Reading(key))
    case ReadHit(c) =>
      if c in s.callers && s.callers[c].Reading? && s.callers[c].key in s.cache
      then WithCaller(s, c, Done(s.callers[c].key, None, Fulfilled(Some(s.cache[s.callers[c].key])))) else s
    case ReadMiss(c, n, start) =>
      if c in s.callers && s.callers[c].Reading? && n !in s.comps
      then AfterMiss(s, c, s.callers[c].key, n, start) else s
    case ReadFails(c, error) =>
      if c in s.callers && s.callers[c].Reading?
      then WithCaller(s, c, Done(s.callers[c].key, None, Rejected(error))) else s
    case LoaderSettles(n, result) =>
      if n !in s.comps || !s.comps[n].Loading? then s
      else if result.Fulfilled? then s.(comps := s.comps[n := Storing(s.comps[n].key, result.value)])
      else End(s, n, s.comps[n].key, result)
    case WriteSettles(n, failure) =>
      if n !in s.comps || !s.comps[n].Storing? then s
      else
        var key, v := s.comps[n].key, s.comps[n].value;
        if failure.Some? then End(s, n, key, Rejected(failure.value))
        else End(s.(cache := Written(s.cache, key, v)), n, key, Fulfilled(v))
    case Resume(c) =>
      if c in s.callers && s.callers[c].Waiting? && s.callers[c].comp in s.comps && s.comps[s.callers[c].comp].Ended?
      then WithCaller(s, c, Done(s.callers[c].key, Some(s.callers[c].comp), s.comps[s.callers[c].comp].result)) else s
    case Evict(key) => s.(cache := s.cache - {key})
  }

  function Run(s: State, steps: seq<Step>): State
    decreases |steps|
  {
    if steps == [] then s else Run(Next(s, steps[0]), steps[1..])
  }

  // -------------------------------------------------------------------- invariant

  /** Its loader or its cache write is under way. */
  predicate Running(comp: Comp) {
    !comp.Ended?
  }

  /** The computation keeps its key in the map: it runs, or its loader threw before the map was set. */
  predicate Holds(comp: Comp) {
    Running(comp) || comp.threwSync
  }

  /** The map holds exactly the computations that hold their key. */
  predicate FlightInv(s: State) {
    && (forall key :: key in s.inFlight ==>
          s.inFlight[key] in s.comps && s.comps[s.inFlight[key]].key == key && Holds(s.comps[s.inFlight[key]]))
    && (forall n :: n in s.comps && Holds(s.comps[n]) ==>
          s.comps[n].key in s.inFlight && s.inFlight[s.comps[n].key] == n)
  }

  /** `v` is what some loader for `key` returned. */
  predicate LoadedFor(s: State, key: Key, v: string) {
    exists n :: n in s.comps && s.comps[n] == Ended(key, Fulfilled(Some(v)), false)
  }

  predicate CacheInv(s: State) {
    forall key :: key in s.cache ==> LoadedFor(s, key, s.cache[key])
  }

  predicate CallerInv(s: State, caller: Caller) {
    match caller
    case Reading(_) => true
    case Waiting(key, n) => n in s.comps && s.comps[n].key == key
    case Done(key, via, result) =>
      if via.Some? then
        && via.value in s.comps && s.comps[via.value].key == key
        && s.comps[via.value].Ended? && s.comps[via.value].result == result
      else result.Fulfilled? ==> result.value.Some? && LoadedFor(s, key, result.value.value)
  }

  predicate Inv(s: State) {
    FlightInv(s) && CacheInv(s) && forall c :: c in s.callers ==> CallerInv(s, s.callers[c])
  }

  /** Computations only move forward, and ended ones stay as they are. */
  predicate CompsAdvance(s: State, s': State) {
    forall n :: n in s.comps ==>
      n in s'.comps && s'.comps[n].key == s.comps[n].key && (s.comps[n].Ended? ==> s'.comps[n] == s.comps[n])
  }

  lemma LoadedStays(s: State, s': State, key: Key, v: string)
    requires CompsAdvance(s, s') && LoadedFor(s, key, v)
    ensures LoadedFor(s', key, v)
  {
    var n :| n in s.comps && s.comps[n] == Ended(key, Fulfilled(Some(v)), false);
    assert s'.comps[n] == s.comps[n];
  }

  lemma CallerStays(s: State, s': State, caller: Caller)
    requires CompsAdvance(s, s') && CallerInv(s, caller)
    ensures CallerInv(s', caller)
  {
    if caller.Done? && caller.via.None? && caller.result.Fulfilled? {
      LoadedStays(s, s', caller.key, caller.result.value.value);
    }
  }

  lemma NextAdvances(s: State, step: Step)
    ensures CompsAdvance(s, Next(s, step))
  {
  }

  lemma MissKeepsFlight(s: State, c: CallerId, key: Key, n: CompId, start: Start)
    requires FlightInv(s) && n !in s.comps
    ensures FlightInv(AfterMiss(s, c, key, n, start))
  {
  }

  lemma EndKeepsFlight(s: State, n: CompId, key: Key, result: Settled)
    requires FlightInv(s) && n in s.comps && Running(s.comps[n]) && s.comps[n].key == key
    ensures FlightInv(End(s, n, key, result))
  {
    var s' := End(s, n, key, result);
    forall m | m in s'.comps && Holds(s'.comps[m])
      ensures s'.comps[m].key in s'.inFlight && s'.inFlight[s'.comps[m].key] == m
    {
      assert m != n && Holds(s.comps[m]);
    }
  }

  lemma StoringKeepsFlight(s: State, n: CompId, v: Value)
    requires FlightInv(s) && n in s.comps && s.comps[n].Loading?
    ensures FlightInv(s.(comps := s.comps[n := Storing(s.comps[n].key, v)]))
  {
  }

  lemma NextKeepsFlight(s: State, step: Step)
    requires FlightInv(s)
    ensures FlightInv(Next(s, step))
  {
    match step
    case ReadMiss(c, n, start) =>
      if Next(s, step) != s {
        MissKeepsFlight(s, c, s.callers[c].key, n, start);
      }
    case LoaderSettles(n, result) =>
      if n in s.comps && s.comps[n].Loading? {
        if result.Fulfilled? {
          StoringKeepsFlight(s, n, result.value);
        } else {
          EndKeepsFlight(s, n, s.comps[n].key, result);
        }
      }
    case WriteSettles(n, failure) =>
      if n in s.comps && s.comps[n].Storing? {
        var key, v := s.comps[n].key, s.comps[n].value;
        if failure.Some? {
          EndKeepsFlight(s, n, key, Rejected(failure.value));
        } else {
          EndKeepsFlight(s.(cache := Written(s.cache, key, v)), n, key, Fulfilled(v));
        }
      }
    case _ =>
  }

  lemma NextKeepsCache(s: State, step: Step)
    requires CacheInv(s)
    ensures CacheInv(Next(s, step))
  {
    var s' := Next(s, step);
    NextAdvances(s, step);
    forall key | key in s'.cache ensures LoadedFor(s', key, s'.cache[key]) {
      if key in s.cache && s'.cache[key] == s.cache[key] {
        LoadedStays(s, s', key, s.cache[key]);
      } else {
        assert s'.comps[step.n] == Ended(key, Fulfilled(Some(s'.cache[key])), false);
      }
    }
  }

  lemma NextKeepsCallers(s: State, step: Step)
    requires Inv(s)
    ensures forall c :: c in Next(s, step).callers ==> CallerInv(Next(s, step), Next(s, step).callers[c])
  {
    var s' := Next(s, step);
    NextAdvances(s, step);
    forall c | c in s'.callers ensures CallerInv(s', s'.callers[c]) {
      if c in s.callers {
        assert CallerInv(s, s.callers[c]);
        CallerStays(s, s', s.callers[c]);
      }
    }
  }

  lemma {:induction false} RunKeepsInv(s: State, steps: seq<Step>)
    requires Inv(s)
    ensures Inv(Run(s, steps))
    decreases |steps|
  {
    if steps != [] {
      NextKeepsFlight(s, steps[0]);
      NextKeepsCache(s, steps[0]);
      NextKeepsCallers(s, steps[0]);
      RunKeepsInv(Next(s, steps[0]), steps[1..]);
    }
  }

  // --------------------------------------------------------------------- theorems

  predicate RunsFor(s: State, n: CompId, key: Key) {
    n in s.comps && s.comps[n].key == key && Running(s.comps[n])
  }

  /**
   In every interleaving at most one computation per key runs, and a key is in the map
   exactly while one runs or after its loader threw synchronously.
   */
  lemma OneLoaderPerKey(steps: seq<Step>, key: Key)
    ensures
      var s := Run(EMPTY, steps);
      && (forall m, n :: RunsFor(s, m, key) && RunsFor(s, n, key) ==> m == n)
      && (key in s.inFlight <==> exists n :: n in s.comps && s.comps[n].key == key && Holds(s.comps[n]))
  {
    RunKeepsInv(EMPTY, steps);
  }

  /** No loader threw before returning its promise. */
  predicate NoSyncThrow(s: State) {
    forall n :: n in s.comps ==> !(s.comps[n].Ended? && s.comps[n].threwSync)
  }

  predicate AllEnded(s: State) {
    forall n :: n in s.comps ==> s.comps[n].Ended?
  }

  /** When all computations have ended the map is empty if and only if no loader threw synchronously. */
  lemma MapDrainsIff(steps: seq<Step>)
    requires AllEnded(Run(EMPTY, steps))
    ensures Run(EMPTY, steps).inFlight == map[] <==> NoSyncThrow(Run(EMPTY, steps))
  {
    RunKeepsInv(EMPTY, steps);
    var s := Run(EMPTY, steps);
    if s.inFlight != map[] {
      var key :| key in s.inFlight;
      assert Holds(s.comps[s.inFlight[key]]);
    }
  }

  /** A caller that joined or started a computation gets that computation's own result or error. */
  lemma JoinersShareTheResult(steps: seq<Step>, c: CallerId)
    requires c in Run(EMPTY, steps).callers && Run(EMPTY, steps).callers[c].Done?
    ensures
      var s := Run(EMPTY, steps);
      var caller := s.callers[c];
      && (caller.via.Some? ==>
            && caller.via.value in s.comps && s.comps[caller.via.value].Ended?
            && s.comps[caller.via.value].key == caller.key && s.comps[caller.via.value].result == caller.result)
      && (caller.via.None? && caller.result.Fulfilled? ==>
            caller.result.value.Some? && LoadedFor(s, caller.key, caller.result.value.value))
  {
    RunKeepsInv(EMPTY, steps);
    assert CallerInv(Run(EMPTY, steps), Run(EMPTY, steps).callers[c]);
  }

  /** The steps that may change the entry of `key`: its eviction, and a successful write for it. */
  predicate Touches(s: State, step: Step, key: Key) {
    match step
    case Evict(k) => k == key
    case WriteSettles(n, failure) => failure.None? && n in s.comps && s.comps[n].Storing? && s.comps[n].key == key
    case _ => false
  }

  predicate LeftAlone(s: State, steps: seq<Step>, key: Key)
    decreases |steps|
  {
    steps == [] || (!Touches(s, steps[0], key) && LeftAlone(Next(s, steps[0]), steps[1..], key))
  }

  /** What `cache` answers for `key`; a null value is not there. */
  function Lookup(cache: map<Key, string>, key: Key): Value {
    if key in cache then Some(cache[key]) else None
  }

  /**
   What the end of a cache write does to the cache: written is exactly the loaded value
   under its key, nothing if it failed, and no other key changes.
   */
  lemma WriteStores(s: State, n: CompId, failure: Option<string>, key: Key)
    requires n in s.comps && s.comps[n].Storing?
    ensures
      var s' := Next(s, WriteSettles(n, failure));
      Lookup(s'.cache, key)
      == if failure.None? && key == s.comps[n].key then s.comps[n].value else Lookup(s.cache, key)
  {
  }

  lemma {:induction false} EntryStays(s: State, steps: seq<Step>, key: Key)
    requires LeftAlone(s, steps, key)
    ensures Lookup(Run(s, steps).cache, key) == Lookup(s.cache, key)
    decreases |steps|
  {
    if steps != [] {
      var s1 := Next(s, steps[0]);
      assert Lookup(s1.cache, key) == Lookup(s.cache, key);
      EntryStays(s1, steps[1..], key);
    }
  }

  /**
   After a value was written for a key, and until the key is evicted or written again,
   every cache read of it that hits ends its call with exactly that value, without
   another computation.
   */
  lemma WrittenValueIsServed(s: State, n: CompId, steps: seq<Step>, c: CallerId)
    requires n in s.comps && s.comps[n].Storing? && s.comps[n].value.Some?
    requires LeftAlone(Next(s, WriteSettles(n, None)), steps, s.comps[n].key)
    requires
      var s1 := Run(Next(s, WriteSettles(n, None)), steps);
      c in s1.callers && s1.callers[c] == Reading(s.comps[n].key)
    ensures
      var s1 := Run(Next(s, WriteSettles(n, None)), steps);
      var s2 := Next(s1, ReadHit(c));
      && Lookup(s1.cache, s.comps[n].key) == s.comps[n].value
      && s2.callers[c] == Done(s.comps[n].key, None, Fulfilled(s.comps[n].value)) && s2.comps == s1.comps
  {
    WriteStores(s, n, None, s.comps[n].key);
    EntryStays(Next(s, WriteSettles(n, None)), steps, s.comps[n].key);
  }

  /** A call on a cold key and the start of its loader. */
  function Started(s: State, c: CallerId, key: Key, n: CompId): State {
    Next(Next(s, Call(c, key)), ReadMiss(c, n, Async))
  }

  /** From there: the loader returns `v`, the write succeeds and the caller is resumed. */
  function Completed(s: State, c: CallerId, n: CompId, v: string): State {
    Next(Next(Next(s, LoaderSettles(n, Fulfilled(Some(v)))), WriteSettles(n, None)), Resume(c))
  }

  lemma ColdCallStarts(s: State, c: CallerId, key: Key, n: CompId)
    requires c !in s.callers && n !in s.comps && key !in s.inFlight
    ensures
      Started(s, c, key, n)
      == State(s.cache, s.inFlight[key := n], s.comps[n := Loading(key)], s.callers[c := Waiting(key, n)])
  {
    assert Next(s, Call(c, key)) == s.(callers := s.callers[c := Reading(key)]);
    assert s.callers[c := Reading(key)][c := Waiting(key, n)] == s.callers[c := Waiting(key, n)];
  }

  lemma CallCompletes(s: State, c: CallerId, key: Key, n: CompId, v: string)
    requires n in s.comps && s.comps[n] == Loading(key) && c in s.callers && s.callers[c] == Waiting(key, n)
    ensures
      Completed(s, c, n, v)
      == State(s.cache[key := v], s.inFlight - {key}, s.comps[n := Ended(key, Fulfilled(Some(v)), false)],
               s.callers[c := Done(key, Some(n), Fulfilled(Some(v)))])
  {
    var s1 := Next(s, LoaderSettles(n, Fulfilled(Some(v))));
    assert s1 == s.(comps := s.comps[n := Storing(key, Some(v))]);
    var s2 := Next(s1, WriteSettles(n, None));
    assert s2.comps == s.comps[n := Ended(key, Fulfilled(Some(v)), false)];
  }

  /** The whole of one undisturbed call on a cold key: it loads once, answers with the value and caches it. */
  lemma ColdCallCaches(s: State, c: CallerId, key: Key, n: CompId, v: string)
    requires c !in s.callers && n !in s.comps && key !in s.inFlight
    ensures
      Completed(Started(s, c, key, n), c, n, v)
      == State(s.cache[key := v], s.inFlight, s.comps[n := Ended(key, Fulfilled(Some(v)), false)],
               s.callers[c := Done(key, Some(n), Fulfilled(Some(v)))])
  {
    ColdCallStarts(s, c, key, n);
    CallCompletes(Started(s, c, key, n), c, key, n, v);
    assert s.inFlight[key := n] - {key} == s.inFlight;
    assert s.comps[n := Loading(key)][n := Ended(key, Fulfilled(Some(v)), false)]
        == s.comps[n := Ended(key, Fulfilled(Some(v)), false)];
    var done := Done(key, Some(n), Fulfilled(Some(v)));
    assert s.callers[c := Waiting(key, n)][c := done] == s.callers[c := done];
  }

  /** `s'` has a computation for `key` that `s` does not have. */
  predicate StartsNew(s: State, s': State, key: Key) {
    exists n :: n in s'.comps && n !in s.comps && s'.comps[n].key == key
  }

  lemma StuckStep(s: State, step: Step, n: CompId)
    requires FlightInv(s) && n in s.comps && s.comps[n].Ended? && s.comps[n].threwSync
    ensures !StartsNew(s, Next(s, step), s.comps[n].key)
  {
    assert Holds(s.comps[n]);
  }

  lemma {:induction false} RunAdvances(s: State, steps: seq<Step>)
    ensures CompsAdvance(s, Run(s, steps))
    decreases |steps|
  {
    if steps != [] {
      NextAdvances(s, steps[0]);
      RunAdvances(Next(s, steps[0]), steps[1..]);
    }
  }

  /**
   What a synchronous throw does: from then on no computation for that key is ever started
   again, and every later caller that misses the cache waits on the failed one.
   */
  lemma {:induction false} SyncThrowIsPermanent(s: State, steps: seq<Step>, n: CompId)
    requires FlightInv(s) && n in s.comps && s.comps[n].Ended? && s.comps[n].threwSync
    ensures
      var s' := Run(s, steps);
      && n in s'.comps && s'.comps[n] == s.comps[n] && !StartsNew(s, s', s.comps[n].key)
      && s.comps[n].key in s'.inFlight && s'.inFlight[s.comps[n].key] == n
    decreases |steps|
  {
    if steps != [] {
      var s1 := Next(s, steps[0]);
      NextAdvances(s, steps[0]);
      RunAdvances(s1, steps[1..]);
      StuckStep(s, steps[0], n);
      NextKeepsFlight(s, steps[0]);
      SyncThrowIsPermanent(s1, steps[1..], n);
      NewComesFromSomewhere(s, s1, Run(s1, steps[1..]), s.comps[n].key);
    } else {
      assert Holds(s.comps[n]);
    }
  }

  lemma NewComesFromSomewhere(s: State, s1: State, s2: State, key: Key)
    requires CompsAdvance(s1, s2) && !StartsNew(s, s1, key) && !StartsNew(s1, s2, key)
    ensures !StartsNew(s, s2, key)
  {
    forall n | n in s2.comps && n !in s.comps ensures s2.comps[n].key != key {
      if n in s1.comps {
        assert s1.comps[n].key == s2.comps[n].key;
      }
    }
  }

  /** Such a state is one call away from the start. */
  lemma SyncThrowIsReachable(key: Key, error: string)
    ensures
      var s := Next(Next(EMPTY, Call(0, key)), ReadMiss(0, 0, SyncThrow(error)));
      s.comps == map[0 := Ended(key, Rejected(error), true)] && s.inFlight == map[key := 0] && AllEnded(s)
  {
  }

  // ------------------------------------------------------------------ the service

  /** The code between the awaits, over the maps of the service. */
  class CacheService {
    var cache: map<Key, string>
    var inFlight: map<Key, CompId>
    var comps: map<CompId, Comp>

    constructor ()
      ensures cache == map[] && inFlight == map[] && comps == map[]
    {
      cache, inFlight, comps := map[], map[], map[];
    }

    ghost function Value(callers: map<CallerId, Caller>): State
      reads this
    {
      State(cache, inFlight, comps, callers)
    }

    /** `getOrSet` from the end of a cache read that missed: which computation the caller awaits. */
    method JoinOrStart(key: Key, n: CompId, start: Start, ghost callers: map<CallerId, Caller>, ghost c: CallerId)
      returns (awaited: CompId)
      requires n !in comps && c in callers && callers[c] == Reading(key)
      modifies this
      ensures Value(callers[c := Waiting(key, awaited)]) == Next(old(Value(callers)), ReadMiss(c, n, start))
      ensures awaited == if key in old(inFlight) then old(inFlight)[key] else n
      ensures cache == old(cache) && inFlight == old(inFlight)[key := awaited]
      ensures key in old(inFlight) ==> comps == old(comps)
      ensures key !in old(inFlight) ==>
                comps == old(comps)[n := if start.Async? then Loading(key) else Ended(key, Rejected(start.error), true)]
    {
      if key in inFlight {
        return inFlight[key];
      }
      if start.SyncThrow? {
        // The computation's finally block runs before the map is set below.
        inFlight := inFlight - {key};
        comps := comps[n := Ended(key, Rejected(start.error), true)];
      } else {
        comps := comps[n := Loading(key)];
      }
      inFlight := inFlight[key := n];
      return n;
    }

    /** The computation from the settling of its loader to its next await or its end. */
    method OnLoaderSettled(n: CompId, result: Settled, ghost callers: map<CallerId, Caller>)
      requires n in comps && comps[n].Loading?
      modifies this
      ensures Value(callers) == Next(old(Value(callers)), LoaderSettles(n, result))
      ensures cache == old(cache)
      ensures result.Fulfilled? ==>
                comps == old(comps)[n := Storing(old(comps)[n].key, result.value)] && inFlight == old(inFlight)
      ensures result.Rejected? ==>
                && comps == old(comps)[n := Ended(old(comps)[n].key, result, false)]
                && inFlight == old(inFlight) - {old(comps)[n].key}
    {
      var key := comps[n].key;
      if result.Fulfilled? {
        comps := comps[n := Storing(key, result.value)];
      } else {
        comps := comps[n := Ended(key, result, false)];
        inFlight := inFlight - {key};
      }
    }

    /** The computation from the settling of its cache write to its end. */
    method OnWriteSettled(n: CompId, failure: Option<string>, ghost callers: map<CallerId, Caller>)
      requires n in comps && comps[n].Storing?
      modifies this
      ensures Value(callers) == Next(old(Value(callers)), WriteSettles(n, failure))
      ensures
        var key, v := old(comps)[n].key, old(comps)[n].value;
        && inFlight == old(inFlight) - {key}
        && comps == old(comps)[n := Ended(key, if failure.None? then Fulfilled(v) else Rejected(failure.value), false)]
        && (failure.None? && v.Some? ==> cache == old(cache)[key := v.value])
        && (failure.None? && v.None? ==> cache == old(cache) - {key})
        && (failure.Some? ==> cache == old(cache))
    {
      var key, v := comps[n].key, comps[n].value;
      var result: Settled;
      if failure.Some? {
        result := Rejected(failure.value);
      } else {
        if v.Some? {
          cache := cache[key := v.value];
        } else {
          cache := cache - {key};
        }
        result := Fulfilled(v);
      }
      comps := comps[n := Ended(key, result, false)];
      inFlight := inFlight - {key};
    }
  }
}
