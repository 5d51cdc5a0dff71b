/**
 Backfilling a range of ledgers: windows of 51 ledgers, each answered by a query that
 starts at the window but is limited in size and unbounded above, so that batches overlap.
 */
module Backfill {
  import opened Chain
  import opened EventRows
  import opened Indexer

  const BACKFILL_BATCH_SIZE := 50

  /** The first ledger of window number `w`; a window includes both its ends, hence 51 ledgers. */
  function WindowStart(from: nat, w: nat): nat {
    from + 51 * w
  }

  // ----------------------------------------------------------------- the windows

  /** The number of events in the `n` ledgers starting at `lo`. */
  function CountIn(h: History, lo: nat, n: nat): nat
    decreases n
  {
    if n == 0 then 0
    else (if 1 <= lo <= |h| then |h[lo - 1].events| else 0) + CountIn(h, lo + 1, n - 1)
  }

  lemma DropBoth(a: seq<Entry>, b: seq<Entry>, k: nat)
    requires k <= |b|
    ensures (a + b)[|a| + k..] == b[k..]
  {
  }

  /** The first `n` ledgers from `lo` on hold `CountIn` entries, and they come first. */
  predicate Splits(h: History, lo: nat, n: nat) {
    && CountIn(h, lo, n) <= |EntriesFrom(h, lo)|
    && EntriesFrom(h, lo)[CountIn(h, lo, n)..] == EntriesFrom(h, lo + n)
  }

  lemma SplitsInside(h: History, lo: nat, n: nat)
    requires 1 <= lo <= |h| && n > 0 && Splits(h, lo + 1, n - 1)
    ensures Splits(h, lo, n)
  {
    var here, rest := LedgerEntries(h[lo - 1], lo), EntriesFrom(h, lo + 1);
    assert EntriesFrom(h, lo) == here + rest;
    DropBoth(here, rest, CountIn(h, lo + 1, n - 1));
  }

  lemma SplitsOutside(h: History, lo: nat, n: nat)
    requires !(1 <= lo <= |h|) && n > 0 && Splits(h, lo + 1, n - 1)
    ensures Splits(h, lo, n)
  {
  }

  /** The events of a ledger range come first, and there are `CountIn` of them. */
  lemma {:induction false} EntriesSplit(h: History, lo: nat, n: nat)
    ensures Splits(h, lo, n)
    decreases n
  {
    if n > 0 {
      EntriesSplit(h, lo + 1, n - 1);
      if 1 <= lo <= |h| {
        SplitsInside(h, lo, n);
      } else {
        SplitsOutside(h, lo, n);
      }
    }
  }

  /** Behind the entries of its own ledger, an entry is one of the later ledgers. */
  lemma PlaceInRest(h: History, lo: nat, p: nat)
    requires 1 <= lo <= |h| && p < |EntriesFrom(h, lo)|
    ensures p < |h[lo - 1].events| ==> EntriesFrom(h, lo)[p].ledger == lo
    ensures p >= |h[lo - 1].events| ==>
              p - |h[lo - 1].events| < |EntriesFrom(h, lo + 1)|
              && EntriesFrom(h, lo)[p] == EntriesFrom(h, lo + 1)[p - |h[lo - 1].events|]
  {
    assert EntriesFrom(h, lo) == LedgerEntries(h[lo - 1], lo) + EntriesFrom(h, lo + 1);
  }

  /** An entry is among the first `CountIn` exactly when its ledger is in the range. */
  lemma {:induction false} PlaceSplits(h: History, lo: nat, n: nat, p: nat)
    requires p < |EntriesFrom(h, lo)|
    ensures p < CountIn(h, lo, n) <==> EntriesFrom(h, lo)[p].ledger < lo + n
    decreases n
  {
    if n == 0 {
      EntriesAreEvents(h, lo, EntriesFrom(h, lo)[p]);
    } else if lo == 0 {
      PlaceSplits(h, 1, n - 1, p);
    } else {
      PlaceInRest(h, lo, p);
      if p >= |h[lo - 1].events| {
        PlaceSplits(h, lo + 1, n - 1, p - |h[lo - 1].events|);
      }
    }
  }

  lemma {:induction false} CountGrows(h: History, lo: nat, n: nat, m: nat)
    requires n <= m
    ensures CountIn(h, lo, n) <= CountIn(h, lo, m)
    decreases n
  {
    if n > 0 {
      CountGrows(h, lo + 1, n - 1, m - 1);
    }
  }

  /** A ledger range with at most 100 events is delivered whole. */
  lemma FittingRangeDelivered(h: History, lo: nat, n: nat, k: Key)
    requires CountIn(h, lo, n) <= BATCH_SIZE && lo <= k.0 < lo + n && Canonical(h, k.0, k)
    ensures Delivered(Fetch(h, lo, true).0, k)
  {
    var all := EntriesFrom(h, lo);
    var e := Entry(k.0, k.1, EventAt(h, k));
    EntriesAreEvents(h, lo, e);
    var p :| 0 <= p < |all| && all[p] == e;
    PlaceSplits(h, lo, n, p);
    assert Fetch(h, lo, true).0[p].Key() == k;
  }

  /** Of a range with more than 100 events, some event is not delivered from `lo` or from below. */
  lemma OverfullRangeMisses(h: History, lo: nat, n: nat) returns (k: Key)
    requires CountIn(h, lo, n) > BATCH_SIZE
    ensures lo <= k.0 < lo + n && Canonical(h, k.0, k)
    ensures forall from: nat :: from <= lo ==> !Delivered(Fetch(h, from, true).0, k)
  {
    var all := EntriesFrom(h, lo);
    EntriesSplit(h, lo, n);
    EntriesAreEvents(h, lo, all[BATCH_SIZE]);
    PlaceSplits(h, lo, n, BATCH_SIZE);
    k := all[BATCH_SIZE].Key();
    forall from: nat | from <= lo ensures !Delivered(Fetch(h, from, true).0, k) {
      LatePlaceNotDelivered(h, from, lo, k, BATCH_SIZE);
    }
  }

  lemma LatePlaceNotDelivered(h: History, from: nat, lo: nat, k: Key, p: nat)
    requires from <= lo && BATCH_SIZE <= p < |EntriesFrom(h, lo)| && EntriesFrom(h, lo)[p].Key() == k
    ensures !Delivered(Fetch(h, from, true).0, k)
  {
    var all := EntriesFrom(h, from);
    var batch := Fetch(h, from, true).0;
    var skipped := CountIn(h, from, lo - from);
    EntriesSplit(h, from, lo - from);
    EntriesOrdered(h, from);
    assert all[skipped + p] == EntriesFrom(h, lo)[p];
    forall i | 0 <= i < |batch| ensures batch[i].Key() != k {
      assert Before(all[i], all[skipped + p]);
    }
  }

  /** The number of ledgers of the window at `lo` that are in the requested range. */
  function Width(lo: nat, to: nat): nat {
    if lo > to then 0 else if lo + BACKFILL_BATCH_SIZE <= to then 51 else to - lo + 1
  }

  /** The place `k` is delivered by one of the queries of the backfill of from..to. */
  ghost predicate Swept(h: History, from: nat, to: nat, fetchOk: nat -> bool, k: Key) {
    exists w: nat :: SweptBy(h, from, to, fetchOk, k, w)
  }

  predicate SweptBy(h: History, from: nat, to: nat, fetchOk: nat -> bool, k: Key, w: nat) {
    var lo := WindowStart(from, w);
    lo <= to && k.0 <= to && Delivered(Fetch(h, lo, fetchOk(lo)).0, k)
  }

  /** No window of the backfill holds more events than one query returns. */
  ghost predicate WindowsFit(h: History, from: nat, to: nat) {
    forall w: nat :: WindowFits(h, from, to, w)
  }

  predicate WindowFits(h: History, from: nat, to: nat, w: nat) {
    CountIn(h, WindowStart(from, w), Width(WindowStart(from, w), to)) <= 100
  }

  const ALWAYS: nat -> bool := (n: nat) => true

  lemma WindowOf(from: nat, n: nat) returns (w: nat)
    requires from <= n
    ensures WindowStart(from, w) <= n < WindowStart(from, w) + 51
  {
    w := (n - from) / 51;
  }

  /** Every event of the requested range is delivered by some query. */
  ghost predicate ReachesAll(h: History, from: nat, to: nat) {
    forall k: Key :: from <= k.0 <= to && Canonical(h, k.0, k) ==> Swept(h, from, to, ALWAYS, k)
  }

  lemma FittingWindowsReach(h: History, from: nat, to: nat)
    requires WindowsFit(h, from, to)
    ensures ReachesAll(h, from, to)
  {
    forall k: Key | from <= k.0 <= to && Canonical(h, k.0, k) ensures Swept(h, from, to, ALWAYS, k) {
      var w := WindowOf(from, k.0);
      assert WindowFits(h, from, to, w);
      FittingRangeDelivered(h, WindowStart(from, w), Width(WindowStart(from, w), to), k);
      assert SweptBy(h, from, to, ALWAYS, k, w);
    }
  }

  /**
   The exact reach of a backfill whose queries all succeed: every event of the requested
   range is delivered if and only if no window holds more than 100 events.
   */
  lemma BackfillReachIff(h: History, from: nat, to: nat)
    ensures ReachesAll(h, from, to) <==> WindowsFit(h, from, to)
  {
    if WindowsFit(h, from, to) {
      FittingWindowsReach(h, from, to);
    } else {
      var w: nat :| !WindowFits(h, from, to, w);
      var lo := WindowStart(from, w);
      var k := OverfullRangeMisses(h, lo, Width(lo, to));
      forall v: nat ensures !SweptBy(h, from, to, ALWAYS, k, v) {
        LaterWindowMisses(h, from, to, k, w, v);
      }
      assert !Swept(h, from, to, ALWAYS, k);
    }
  }

  lemma LaterWindowMisses(h: History, from: nat, to: nat, k: Key, w: nat, v: nat)
    requires k.0 < WindowStart(from, w) + 51
    requires forall lo: nat :: lo <= WindowStart(from, w) ==> !Delivered(Fetch(h, lo, true).0, k)
    ensures !SweptBy(h, from, to, ALWAYS, k, v)
  {
    var lo := WindowStart(from, v);
    if v > w {
      assert lo >= WindowStart(from, w) + 51;
      var batch := Fetch(h, lo, true).0;
      forall i | 0 <= i < |batch| ensures batch[i].Key() != k {
        assert batch[i] == EntriesFrom(h, lo)[i];
        EntriesAreEvents(h, lo, batch[i]);
      }
    }
  }

  /** In particular, when no 51 consecutive ledgers hold more than 100 events. */
  lemma SparseChainFits(h: History, from: nat, to: nat)
    requires forall lo: nat :: CountIn(h, lo, 51) <= 100
    ensures WindowsFit(h, from, to)
  {
    forall w: nat ensures WindowFits(h, from, to, w) {
      var lo := WindowStart(from, w);
      assert CountIn(h, lo, 51) <= 100;
      CountGrows(h, lo, Width(lo, to), 51);
    }
  }

  // --------------------------------------------------------------- the deliveries

  /** The events of an ordered batch up to ledger `to`. */
  function InRange(batch: seq<Entry>, to: nat): seq<Entry> {
    if batch == [] || batch[0].ledger > to then [] else [batch[0]] + InRange(batch[1..], to)
  }

  /** Those of them that are tried: up to and including the first whose lookup throws, which ends the batch. */
  function Tried(es: seq<Entry>, faults: nat -> Fault, n: nat): seq<Entry>
    decreases |es|
  {
    if es == [] then []
    else if faults(n) == LookupThrows then [es[0]]
    else [es[0]] + Tried(es[1..], faults, n + 1)
  }

  /** The events of the range that the query of window `w` returns. */
  function Batches(h: History, from: nat, to: nat, fetchOk: nat -> bool): nat -> seq<Entry> {
    (w: nat) => InRange(Fetch(h, WindowStart(from, w), fetchOk(WindowStart(from, w))).0, to)
  }

  /** Everything that is tried from window `w` on, when `n` events were tried before. */
  function TriedFrom(batches: nat -> seq<Entry>, from: nat, to: nat, faults: nat -> Fault, w: nat, n: nat): seq<Entry>
    decreases 1 + to - WindowStart(from, w)
  {
    if WindowStart(from, w) > to then []
    else
      var here := Tried(batches(w), faults, n);
      here + TriedFrom(batches, from, to, faults, w + 1, n + |here|)
  }

  /** Everything that a backfill tries. */
  function Deliveries(h: History, from: nat, to: nat, fetchOk: nat -> bool, faults: nat -> Fault): seq<Entry> {
    TriedFrom(Batches(h, from, to, fetchOk), from, to, faults, 0, 0)
  }

  /** The rows after the events were tried one after the other. */
  function RowsAfter(rows: Rows, es: seq<Entry>, faults: nat -> Fault, n: nat, handler: Handler): Rows
    decreases |es|
  {
    if es == [] then rows
    else RowsAfter(StoreOne(rows, es[0], faults(n), handler), es[1..], faults, n + 1, handler)
  }

  /** What a tried event met: a row that was processed before, a database error, or neither. */
  datatype Encounter = MetProcessed | MetError | MetNew

  function EncounterOf(rows: Rows, e: Entry, fault: Fault): Encounter {
    if fault == LookupThrows then MetError
    else if IsProcessed(rows, e.Key()) then MetProcessed
    else if fault.StoreThrows? then MetError else MetNew
  }

  function Encounters(rows: Rows, es: seq<Entry>, faults: nat -> Fault, n: nat, handler: Handler): seq<Encounter>
    decreases |es|
  {
    if es == [] then []
    else
      [EncounterOf(rows, es[0], faults(n))]
      + Encounters(StoreOne(rows, es[0], faults(n), handler), es[1..], faults, n + 1, handler)
  }

  function Count(ms: seq<Encounter>, m: Encounter): nat {
    if ms == [] then 0 else (if ms[0] == m then 1 else 0) + Count(ms[1..], m)
  }

  // ---------------------------------------------------------------- the procedure

  datatype Summary = Summary(totalFetched: nat, newlyProcessed: nat, alreadyIndexed: nat, errors: nat)

  /** The summary after events with these encounters. */
  function Sum(s: Summary, ms: seq<Encounter>): Summary {
    Summary(s.totalFetched + |ms|, s.newlyProcessed + Count(ms, MetNew), s.alreadyIndexed + Count(ms, MetProcessed),
            s.errors + Count(ms, MetError))
  }

  /** Process one fetched event. */
  method BackfillEvent(svc: Service, rawEvent: Entry, fault: Fault, handler: Handler, s0: Summary)
    returns (s: Summary, aborted: bool)
    modifies svc`rows
    ensures aborted <==> fault == LookupThrows
    ensures svc.rows == StoreOne(old(svc.rows), rawEvent, fault, handler)
    ensures s.totalFetched == s0.totalFetched + 1
    ensures
      var seen := rawEvent.Key() in old(svc.rows) && old(svc.rows)[rawEvent.Key()].status == Processed;
      && s.errors == s0.errors + (if aborted || (fault.StoreThrows? && !seen) then 1 else 0)
      && s.alreadyIndexed == s0.alreadyIndexed + (if seen && !aborted then 1 else 0)
      && s.newlyProcessed == s0.newlyProcessed + (if fault == NoFault && !seen then 1 else 0)
  {
    s, aborted := s0.(totalFetched := s0.totalFetched + 1), false;
    if fault == LookupThrows {
      s, aborted := s.(errors := s.errors + 1), true;
    } else if rawEvent.Key() in svc.rows && svc.rows[rawEvent.Key()].status == Processed {
      s := s.(alreadyIndexed := s.alreadyIndexed + 1);
    } else if fault.StoreThrows? {
      if fault.saved {
        svc.rows := svc.rows[rawEvent.Key() := Received(svc.rows, rawEvent)];
      }
      s := s.(errors := s.errors + 1);
    } else {
      svc.StoreAndProcessEvent(rawEvent, handler);
      s := s.(newlyProcessed := s.newlyProcessed + 1);
    }
  }

  /** The summary after one more event. */
  function Added(s: Summary, m: Encounter): Summary {
    Summary(s.totalFetched + 1, s.newlyProcessed + (if m == MetNew then 1 else 0),
            s.alreadyIndexed + (if m == MetProcessed then 1 else 0), s.errors + (if m == MetError then 1 else 0))
  }

  /** Rows and summary after trying the events one after the other. */
  function Outcome(rows: Rows, s: Summary, es: seq<Entry>, faults: nat -> Fault, handler: Handler): (Rows, Summary)
    decreases |es|
  {
    if es == [] then (rows, s)
    else
      var fault := faults(s.totalFetched);
      Outcome(StoreOne(rows, es[0], fault, handler), Added(s, EncounterOf(rows, es[0], fault)), es[1..], faults,
              handler)
  }

  lemma {:induction false} OutcomeAppend(rows: Rows, s: Summary, a: seq<Entry>, b: seq<Entry>, faults: nat -> Fault,
                                         handler: Handler)
    ensures
      var (rows1, s1) := Outcome(rows, s, a, faults, handler);
      && s1.totalFetched == s.totalFetched + |a|
      && Outcome(rows, s, a + b, faults, handler) == Outcome(rows1, s1, b, faults, handler)
    decreases |a|
  {
    if a == [] {
      assert a + b == b;
    } else {
      var fault := faults(s.totalFetched);
      assert (a + b)[1..] == a[1..] + b;
      OutcomeAppend(StoreOne(rows, a[0], fault, handler), Added(s, EncounterOf(rows, a[0], fault)), a[1..], b, faults,
                    handler);
    }
  }

  lemma SumCons(s: Summary, m: Encounter, ms: seq<Encounter>)
    ensures Sum(s, [m] + ms) == Sum(Added(s, m), ms)
  {
    assert ([m] + ms)[1..] == ms;
  }

  /** That is the fold of the rows and the sums of the encounters. */
  lemma {:induction false} OutcomeIs(rows: Rows, s: Summary, es: seq<Entry>, faults: nat -> Fault, handler: Handler)
    ensures
      Outcome(rows, s, es, faults, handler)
      == (RowsAfter(rows, es, faults, s.totalFetched, handler),
          Sum(s, Encounters(rows, es, faults, s.totalFetched, handler)))
    decreases |es|
  {
    if es != [] {
      var fault := faults(s.totalFetched);
      var rows1, m := StoreOne(rows, es[0], fault, handler), EncounterOf(rows, es[0], fault);
      OutcomeIs(rows1, Added(s, m), es[1..], faults, handler);
      SumCons(s, m, Encounters(rows1, es[1..], faults, s.totalFetched + 1, handler));
    }
  }

  /** What is left to try from place `i` of a batch on. */
  function Left(batch: seq<Entry>, i: nat, to: nat, faults: nat -> Fault, n: nat): seq<Entry>
    requires i <= |batch|
  {
    Tried(InRange(batch[i..], to), faults, n)
  }

  lemma LeftCons(batch: seq<Entry>, i: nat, to: nat, faults: nat -> Fault, n: nat)
    requires i < |batch| && batch[i].ledger <= to
    ensures
      Left(batch, i, to, faults, n)
      == [batch[i]] + if faults(n) == LookupThrows then [] else Left(batch, i + 1, to, faults, n + 1)
  {
    assert batch[i..][1..] == batch[i + 1..];
    assert InRange(batch[i..], to) == [batch[i]] + InRange(batch[i + 1..], to);
    assert InRange(batch[i..], to)[1..] == InRange(batch[i + 1..], to);
  }

  lemma BatchStep(rows: Rows, s: Summary, batch: seq<Entry>, i: nat, to: nat, faults: nat -> Fault, handler: Handler)
    requires i < |batch| && batch[i].ledger <= to
    ensures
      var fault := faults(s.totalFetched);
      var rows1, s1 := StoreOne(rows, batch[i], fault, handler), Added(s, EncounterOf(rows, batch[i], fault));
      Outcome(rows, s, Left(batch, i, to, faults, s.totalFetched), faults, handler)
      == if fault == LookupThrows then (rows1, s1)
         else Outcome(rows1, s1, Left(batch, i + 1, to, faults, s1.totalFetched), faults, handler)
  {
    LeftCons(batch, i, to, faults, s.totalFetched);
    var rest := if faults(s.totalFetched) == LookupThrows then []
                else Left(batch, i + 1, to, faults, s.totalFetched + 1);
    assert ([batch[i]] + rest)[1..] == rest;
  }

  /** Process one fetched batch; `aborted` when a lookup threw. */
  method BackfillBatch(svc: Service, batch: seq<Entry>, to: nat, faults: nat -> Fault, handler: Handler, s0: Summary)
    returns (s: Summary, aborted: bool)
    modifies svc`rows
    ensures
      (svc.rows, s)
      == Outcome(old(svc.rows), s0, Tried(InRange(batch, to), faults, s0.totalFetched), faults, handler)
  {
    s, aborted := s0, false;
    ghost var end := Outcome(svc.rows, s0, Tried(InRange(batch, to), faults, s0.totalFetched), faults, handler);
    var i := 0;
    assert batch[0..] == batch;
    while i < |batch| && batch[i].ledger <= to
      invariant 0 <= i <= |batch|
      invariant end == Outcome(svc.rows, s, Left(batch, i, to, faults, s.totalFetched), faults, handler)
    {
      BatchStep(svc.rows, s, batch, i, to, faults, handler);
      s, aborted := BackfillEvent(svc, batch[i], faults(s.totalFetched), handler, s);
      if aborted {
        return;
      }
      i := i + 1;
    }
    NothingLeft(batch, i, to, faults, s.totalFetched);
  }

  lemma NothingLeft(batch: seq<Entry>, i: nat, to: nat, faults: nat -> Fault, n: nat)
    requires i <= |batch| && (i < |batch| ==> batch[i].ledger > to)
    ensures Left(batch, i, to, faults, n) == []
  {
  }

  /** Trying some events and then the others. */
  lemma OutcomeSplit(rows: Rows, s: Summary, all: seq<Entry>, a: seq<Entry>, b: seq<Entry>, faults: nat -> Fault,
                     handler: Handler)
    requires all == a + b
    ensures
      var next := Outcome(rows, s, a, faults, handler);
      && next.1.totalFetched == s.totalFetched + |a|
      && Outcome(rows, s, all, faults, handler) == Outcome(next.0, next.1, b, faults, handler)
  {
    OutcomeAppend(rows, s, a, b, faults, handler);
  }

  lemma WindowStep(rows: Rows, s: Summary, rows1: Rows, s1: Summary, batches: nat -> seq<Entry>, from: nat, to: nat,
                   faults: nat -> Fault, w: nat, handler: Handler)
    requires WindowStart(from, w) <= to
    requires (rows1, s1) == Outcome(rows, s, Tried(batches(w), faults, s.totalFetched), faults, handler)
    ensures Outcome(rows, s, TriedFrom(batches, from, to, faults, w, s.totalFetched), faults, handler)
            == Outcome(rows1, s1, TriedFrom(batches, from, to, faults, w + 1, s1.totalFetched), faults, handler)
  {
    var n := s.totalFetched;
    var here := Tried(batches(w), faults, n);
    var later := TriedFrom(batches, from, to, faults, w + 1, n + |here|);
    assert TriedFrom(batches, from, to, faults, w, n) == here + later;
    OutcomeSplit(rows, s, TriedFrom(batches, from, to, faults, w, n), here, later, faults, handler);
  }

  /** One window: the query, and the batch if there is one. */
  method BackfillWindow(svc: Service, h: History, currentLedger: nat, to: nat, fetchOk: nat -> bool,
                        faults: nat -> Fault, handler: Handler, s0: Summary) returns (s: Summary)
    modifies svc`rows
    ensures
      var batch := Fetch(h, currentLedger, fetchOk(currentLedger)).0;
      (svc.rows, s)
      == Outcome(old(svc.rows), s0, Tried(InRange(batch, to), faults, s0.totalFetched), faults, handler)
  {
    var (events, _) := Fetch(h, currentLedger, fetchOk(currentLedger));
    if events == [] { return s0; }
    var summary, _ := BackfillBatch(svc, events, to, faults, handler, s0);
    return summary;
  }

  /** The loop over the windows. */
  method BackfillWindows(svc: Service, h: History, from: nat, to: nat, fetchOk: nat -> bool, faults: nat -> Fault,
                         handler: Handler) returns (s: Summary)
    modifies svc`rows
    ensures
      (svc.rows, s)
      == Outcome(old(svc.rows), Summary(0, 0, 0, 0), Deliveries(h, from, to, fetchOk, faults), faults, handler)
  {
    s := Summary(0, 0, 0, 0);
    ghost var batches := Batches(h, from, to, fetchOk);
    ghost var end := Outcome(svc.rows, s, TriedFrom(batches, from, to, faults, 0, 0), faults, handler);
    ghost var w := 0;
    var currentLedger := from;
    while currentLedger <= to
      invariant currentLedger <= to ==> currentLedger == WindowStart(from, w)
      invariant currentLedger > to ==> WindowStart(from, w) > to
      invariant end == Outcome(svc.rows, s, TriedFrom(batches, from, to, faults, w, s.totalFetched), faults, handler)
      decreases 1 + to - currentLedger
    {
      ghost var rows, before := svc.rows, s;
      s := BackfillWindow(svc, h, currentLedger, to, fetchOk, faults, handler, s);
      WindowStep(rows, before, svc.rows, s, batches, from, to, faults, w, handler);
      var batchEnd := if currentLedger + BACKFILL_BATCH_SIZE <= to then currentLedger + BACKFILL_BATCH_SIZE else to;
      w := w + 1;
      currentLedger := batchEnd + 1;
    }
  }

  /**
   `backfillEvents`: it terminates, and what it tries is the sequence `Deliveries`. The
   rows are those after trying them one after the other; the total is their number, and
   the three counts are how many of them met a processed row, a database error, or neither.
   */
  method BackfillEvents(svc: Service, h: History, from: nat, to: nat, fetchOk: nat -> bool,
                        faults: nat -> Fault, handler: Handler) returns (s: Summary)
    modifies svc`rows
    ensures
      var es := Deliveries(h, from, to, fetchOk, faults);
      var ms := Encounters(old(svc.rows), es, faults, 0, handler);
      && svc.rows == RowsAfter(old(svc.rows), es, faults, 0, handler)
      && s.totalFetched == |es| && s.newlyProcessed == Count(ms, MetNew)
      && s.alreadyIndexed == Count(ms, MetProcessed) && s.errors == Count(ms, MetError)
  {
    ghost var es := Deliveries(h, from, to, fetchOk, faults);
    OutcomeIs(svc.rows, Summary(0, 0, 0, 0), es, faults, handler);
    EncountersLength(svc.rows, es, faults, 0, handler);
    s := BackfillWindows(svc, h, from, to, fetchOk, faults, handler);
  }

  lemma {:induction false} EncountersLength(rows: Rows, es: seq<Entry>, faults: nat -> Fault, n: nat, handler: Handler)
    ensures |Encounters(rows, es, faults, n, handler)| == |es|
    decreases |es|
  {
    if es != [] {
      EncountersLength(StoreOne(rows, es[0], faults(n), handler), es[1..], faults, n + 1, handler);
    }
  }

  // -------------------------------------------------------------- what a backfill does

  lemma FetchOrdered(h: History, lo: nat, ok: bool)
    ensures Ordered(Fetch(h, lo, ok).0)
  {
    EntriesOrdered(h, lo);
  }

  /** What is tried of an ordered batch is its part up to `to`. */
  lemma {:induction false} InRangeIff(batch: seq<Entry>, to: nat, e: Entry)
    requires Ordered(batch)
    ensures e in InRange(batch, to) <==> e in batch && e.ledger <= to
    decreases |batch|
  {
    if batch != [] {
      if batch[0].ledger <= to {
        InRangeIff(batch[1..], to, e);
      } else if e in batch {
        var i :| 0 <= i < |batch| && batch[i] == e;
        assert i == 0 || Before(batch[0], batch[i]);
      }
    }
  }

  ghost predicate NoLookupThrows(faults: nat -> Fault) {
    forall n :: faults(n) != LookupThrows
  }

  lemma {:induction false} AllAreTried(es: seq<Entry>, faults: nat -> Fault, n: nat)
    ensures Tried(es, faults, n) <= es
    ensures NoLookupThrows(faults) ==> Tried(es, faults, n) == es
    decreases |es|
  {
    if es != [] {
      AllAreTried(es[1..], faults, n + 1);
      assert es == [es[0]] + es[1..];
    }
  }

  /** A window's query delivers `k` if and only if `k` is in its batch. */
  lemma WindowDelivers(h: History, from: nat, to: nat, fetchOk: nat -> bool, w: nat, k: Key)
    requires WindowStart(from, w) <= to
    ensures Delivered(Batches(h, from, to, fetchOk)(w), k) <==> SweptBy(h, from, to, fetchOk, k, w)
  {
    var lo := WindowStart(from, w);
    var batch := Fetch(h, lo, fetchOk(lo)).0;
    var here := Batches(h, from, to, fetchOk)(w);
    FetchOrdered(h, lo, fetchOk(lo));
    if Delivered(here, k) {
      var i :| 0 <= i < |here| && here[i].Key() == k;
      InRangeIff(batch, to, here[i]);
    }
    if SweptBy(h, from, to, fetchOk, k, w) {
      var i :| 0 <= i < |batch| && batch[i].Key() == k;
      InRangeIff(batch, to, batch[i]);
    }
  }

  lemma DeliveredAppend(a: seq<Entry>, b: seq<Entry>, k: Key)
    ensures Delivered(a + b, k) <==> Delivered(a, k) || Delivered(b, k)
  {
    if Delivered(a, k) {
      var i :| 0 <= i < |a| && a[i].Key() == k;
      assert (a + b)[i].Key() == k;
    }
    if Delivered(b, k) {
      var i :| 0 <= i < |b| && b[i].Key() == k;
      assert (a + b)[|a| + i].Key() == k;
    }
  }

  /** `k` is in the batch of window `w` or a later one. */
  ghost predicate InBatches(batches: nat -> seq<Entry>, from: nat, to: nat, w: nat, k: Key) {
    exists v: nat :: w <= v && WindowStart(from, v) <= to && Delivered(batches(v), k)
  }

  lemma InBatchesCons(batches: nat -> seq<Entry>, from: nat, to: nat, w: nat, k: Key)
    requires WindowStart(from, w) <= to
    ensures InBatches(batches, from, to, w, k) <==> Delivered(batches(w), k) || InBatches(batches, from, to, w + 1, k)
  {
    if InBatches(batches, from, to, w, k) && !Delivered(batches(w), k) {
      var v: nat :| w <= v && WindowStart(from, v) <= to && Delivered(batches(v), k);
      assert w + 1 <= v;
    }
  }

  lemma TriedAreDelivered(es: seq<Entry>, faults: nat -> Fault, n: nat, k: Key)
    ensures Delivered(Tried(es, faults, n), k) ==> Delivered(es, k)
    ensures NoLookupThrows(faults) && Delivered(es, k) ==> Delivered(Tried(es, faults, n), k)
  {
    var tried := Tried(es, faults, n);
    AllAreTried(es, faults, n);
    if Delivered(tried, k) {
      var i :| 0 <= i < |tried| && tried[i].Key() == k;
      assert es[i] == tried[i];
    }
  }

  /** What is tried is in the batches, and all of it is tried when no lookup throws. */
  lemma {:induction false} TriedFromBatches(batches: nat -> seq<Entry>, from: nat, to: nat, faults: nat -> Fault,
                                            w: nat, n: nat, k: Key)
    ensures Delivered(TriedFrom(batches, from, to, faults, w, n), k) ==> InBatches(batches, from, to, w, k)
    ensures NoLookupThrows(faults) && InBatches(batches, from, to, w, k) ==>
              Delivered(TriedFrom(batches, from, to, faults, w, n), k)
    decreases 1 + to - WindowStart(from, w)
  {
    if WindowStart(from, w) <= to {
      var here := Tried(batches(w), faults, n);
      TriedAreDelivered(batches(w), faults, n, k);
      TriedFromBatches(batches, from, to, faults, w + 1, n + |here|, k);
      InBatchesCons(batches, from, to, w, k);
      DeliveredAppend(here, TriedFrom(batches, from, to, faults, w + 1, n + |here|), k);
    }
  }

  /** Only places of the range are delivered, and all that its queries deliver when no lookup throws. */
  lemma DeliveriesAreSwept(h: History, from: nat, to: nat, fetchOk: nat -> bool, faults: nat -> Fault, k: Key)
    ensures Delivered(Deliveries(h, from, to, fetchOk, faults), k) ==> Swept(h, from, to, fetchOk, k)
    ensures NoLookupThrows(faults) && Swept(h, from, to, fetchOk, k) ==>
              Delivered(Deliveries(h, from, to, fetchOk, faults), k)
  {
    var batches := Batches(h, from, to, fetchOk);
    TriedFromBatches(batches, from, to, faults, 0, 0, k);
    if InBatches(batches, from, to, 0, k) {
      var v: nat :| WindowStart(from, v) <= to && Delivered(batches(v), k);
      WindowDelivers(h, from, to, fetchOk, v, k);
    }
    if Swept(h, from, to, fetchOk, k) {
      var v: nat :| SweptBy(h, from, to, fetchOk, k, v);
      WindowDelivers(h, from, to, fetchOk, v, k);
    }
  }

  lemma DeliveredCons(es: seq<Entry>, k: Key)
    requires es != []
    ensures Delivered(es, k) <==> es[0].Key() == k || Delivered(es[1..], k)
  {
    assert es == [es[0]] + es[1..];
    DeliveredAppend([es[0]], es[1..], k);
    if es[0].Key() == k {
      assert [es[0]][0].Key() == k;
    }
  }

  ghost predicate NeverFails(faults: nat -> Fault) {
    forall n :: faults(n) == NoFault
  }

  /** Trying events loses no row, adds at most their places, and all of them when nothing fails. */
  lemma {:induction false} TriesAddPlaces(rows: Rows, es: seq<Entry>, faults: nat -> Fault, n: nat, handler: Handler,
                                          k: Key)
    ensures k in rows ==> k in RowsAfter(rows, es, faults, n, handler)
    ensures k in RowsAfter(rows, es, faults, n, handler) ==> k in rows || Delivered(es, k)
    ensures NeverFails(faults) && Delivered(es, k) ==> k in RowsAfter(rows, es, faults, n, handler)
    decreases |es|
  {
    if es != [] {
      DeliveredCons(es, k);
      TriesAddPlaces(StoreOne(rows, es[0], faults(n), handler), es[1..], faults, n + 1, handler, k);
    }
  }

  /** The counts add up to the number of events tried, and without faults there is no error. */
  lemma {:induction false} EncountersAddUp(rows: Rows, es: seq<Entry>, faults: nat -> Fault, n: nat, handler: Handler)
    ensures
      var ms := Encounters(rows, es, faults, n, handler);
      && |es| == Count(ms, MetNew) + Count(ms, MetProcessed) + Count(ms, MetError)
      && (NeverFails(faults) ==> Count(ms, MetError) == 0)
    decreases |es|
  {
    if es != [] {
      EncountersAddUp(StoreOne(rows, es[0], faults(n), handler), es[1..], faults, n + 1, handler);
    }
  }

  /**
   What a backfill does to the rows and reports, whatever fails: no row is lost, only places
   of the range are added, and every event tried is counted exactly once. When nothing
   fails in the database there is no error and exactly the places delivered by its queries
   are there afterwards; by BackfillReachIff that is the whole range if and only if every
   window fits a query.
   */
  lemma BackfillDoes(rows: Rows, h: History, from: nat, to: nat, fetchOk: nat -> bool, faults: nat -> Fault,
                     handler: Handler)
    ensures
      var es := Deliveries(h, from, to, fetchOk, faults);
      var rows' := RowsAfter(rows, es, faults, 0, handler);
      var ms := Encounters(rows, es, faults, 0, handler);
      && (forall k :: k in rows ==> k in rows')
      && (forall k :: k in rows' ==> k in rows || Swept(h, from, to, fetchOk, k))
      && |es| == Count(ms, MetNew) + Count(ms, MetProcessed) + Count(ms, MetError)
      && (NeverFails(faults) ==>
            Count(ms, MetError) == 0 && forall k: Key :: Swept(h, from, to, fetchOk, k) ==> k in rows')
  {
    var es := Deliveries(h, from, to, fetchOk, faults);
    var rows' := RowsAfter(rows, es, faults, 0, handler);
    EncountersAddUp(rows, es, faults, 0, handler);
    forall k: Key
      ensures (k in rows ==> k in rows') && (k in rows' ==> k in rows || Swept(h, from, to, fetchOk, k))
      ensures NeverFails(faults) && Swept(h, from, to, fetchOk, k) ==> k in rows'
    {
      TriesAddPlaces(rows, es, faults, 0, handler, k);
      DeliveriesAreSwept(h, from, to, fetchOk, faults, k);
    }
  }

  // ----------------------------------------------------- backfills that go well

  ghost predicate AlwaysSucceeds(handler: Handler) {
    forall e, n :: handler(e, n)
  }

  /** The places of the events that have no processed row yet. */
  function Fresh(rows: Rows, es: seq<Entry>): set<Key> {
    set i | 0 <= i < |es| && !IsProcessed(rows, es[i].Key()) :: es[i].Key()
  }

  lemma FreshCons(rows: Rows, es: seq<Entry>, handler: Handler)
    requires es != [] && AlwaysSucceeds(handler)
    ensures
      var k := es[0].Key();
      var rows1 := StoreOne(rows, es[0], NoFault, handler);
      && IsProcessed(rows1, k) && k !in Fresh(rows1, es[1..])
      && Fresh(rows, es) == Fresh(rows1, es[1..]) + if IsProcessed(rows, k) then {} else {k}
  {
    var k := es[0].Key();
    var rows1 := StoreOne(rows, es[0], NoFault, handler);
    forall j | 0 <= j < |es|
      ensures IsProcessed(rows1, es[j].Key()) <==> IsProcessed(rows, es[j].Key()) || es[j].Key() == k
    {
    }
    forall x | x in Fresh(rows, es) ensures x in Fresh(rows1, es[1..]) || (!IsProcessed(rows, k) && x == k) {
      var j :| 0 <= j < |es| && !IsProcessed(rows, es[j].Key()) && es[j].Key() == x;
      if x != k {
        assert es[1..][j - 1] == es[j];
      }
    }
    forall x | x in Fresh(rows1, es[1..]) ensures x in Fresh(rows, es) {
      var j :| 0 <= j < |es| - 1 && !IsProcessed(rows1, es[1..][j].Key()) && es[1..][j].Key() == x;
      assert es[j + 1].Key() == x;
    }
  }

  /** Without faults and with handlers that succeed, each place that was not processed is counted as new once. */
  lemma {:induction false} NewOnesAreFresh(rows: Rows, es: seq<Entry>, faults: nat -> Fault, n: nat, handler: Handler)
    requires NeverFails(faults) && AlwaysSucceeds(handler)
    ensures Count(Encounters(rows, es, faults, n, handler), MetNew) == |Fresh(rows, es)|
    ensures forall k :: IsProcessed(RowsAfter(rows, es, faults, n, handler), k)
                        <==> IsProcessed(rows, k) || Delivered(es, k)
    decreases |es|
  {
    if es != [] {
      var rows1 := StoreOne(rows, es[0], NoFault, handler);
      FreshCons(rows, es, handler);
      NewOnesAreFresh(rows1, es[1..], faults, n + 1, handler);
      forall k
        ensures IsProcessed(RowsAfter(rows, es, faults, n, handler), k) <==> IsProcessed(rows, k) || Delivered(es, k)
      {
        DeliveredCons(es, k);
      }
    }
  }

  lemma {:induction false} NothingNew(rows: Rows, es: seq<Entry>, faults: nat -> Fault, n: nat, handler: Handler)
    requires NeverFails(faults) && forall k :: Delivered(es, k) ==> IsProcessed(rows, k)
    ensures RowsAfter(rows, es, faults, n, handler) == rows
    ensures Count(Encounters(rows, es, faults, n, handler), MetProcessed) == |es|
    decreases |es|
  {
    if es != [] {
      forall k | Delivered(es[1..], k) ensures Delivered(es, k) {
        DeliveredCons(es, k);
      }
      DeliveredCons(es, es[0].Key());
      NothingNew(rows, es[1..], faults, n + 1, handler);
    }
  }

  /**
   A backfill in which nothing fails leaves every place its queries deliver PROCESSED and
   reports as newly processed exactly the number of those that were not; repeating it
   changes nothing and reports all of them as already indexed.
   */
  lemma BackfillIsIdempotent(rows: Rows, h: History, from: nat, to: nat, fetchOk: nat -> bool, faults: nat -> Fault,
                             handler: Handler)
    requires NeverFails(faults) && AlwaysSucceeds(handler)
    ensures
      var es := Deliveries(h, from, to, fetchOk, faults);
      var rows' := RowsAfter(rows, es, faults, 0, handler);
      && (forall k :: Delivered(es, k) <==> Swept(h, from, to, fetchOk, k))
      && (forall k :: Swept(h, from, to, fetchOk, k) ==> IsProcessed(rows', k))
      && Count(Encounters(rows, es, faults, 0, handler), MetNew) == |Fresh(rows, es)|
      && RowsAfter(rows', es, faults, 0, handler) == rows'
      && Count(Encounters(rows', es, faults, 0, handler), MetProcessed) == |es|
  {
    var es := Deliveries(h, from, to, fetchOk, faults);
    var rows' := RowsAfter(rows, es, faults, 0, handler);
    forall k ensures Delivered(es, k) <==> Swept(h, from, to, fetchOk, k) {
      DeliveriesAreSwept(h, from, to, fetchOk, faults, k);
    }
    NewOnesAreFresh(rows, es, faults, 0, handler);
    NothingNew(rows', es, faults, 0, handler);
  }
}
