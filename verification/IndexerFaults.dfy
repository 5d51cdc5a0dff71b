/** Polls on a database that fails to store some events: when the cursor still tells the truth. */
module IndexerFaults {
  import opened Chain
  import opened EventRows
  import opened Indexer
  import opened IndexerSync

  /** The row of a new event is there after it was stored with this fault. */
  predicate Keeps(fault: Fault) {
    fault == NoFault || (fault.StoreThrows? && fault.saved)
  }

  /** None of the batch has a row yet. */
  predicate AllNew(rows: Rows, es: seq<Entry>) {
    forall i :: 0 <= i < |es| ==> es[i].Key() !in rows
  }

  /** `k` is the place of an event of the batch whose row is kept. */
  predicate Kept(es: seq<Entry>, faults: Faults, k: Key) {
    exists i :: 0 <= i < |es| && es[i].Key() == k && Keeps(faults(es[i]))
  }

  /** The highest ledger of an event that is stored without an error, at least `from`. */
  function MaxStored(from: nat, es: seq<Entry>, faults: Faults): nat
    decreases |es|
  {
    if es == [] then from
    else MaxStored(if faults(es[0]) == NoFault && es[0].ledger > from then es[0].ledger else from, es[1..], faults)
  }

  lemma FirstIsNewForRest(rows: Rows, es: seq<Entry>, fault: Fault, handler: Handler)
    requires Ordered(es) && es != [] && AllNew(rows, es)
    ensures AllNew(StoreOne(rows, es[0], fault, handler), es[1..]) && Ordered(es[1..])
  {
    forall i | 0 <= i < |es| - 1 ensures es[1..][i].Key() !in StoreOne(rows, es[0], fault, handler) {
      assert Before(es[0], es[i + 1]);
    }
  }

  lemma KeptCons(es: seq<Entry>, faults: Faults, k: Key)
    requires es != []
    ensures Kept(es, faults, k) <==> (es[0].Key() == k && Keeps(faults(es[0]))) || Kept(es[1..], faults, k)
  {
    if Kept(es[1..], faults, k) {
      var i :| 0 <= i < |es[1..]| && es[1..][i].Key() == k && Keeps(faults(es[1..][i]));
      assert es[i + 1].Key() == k;
    }
    if Kept(es, faults, k) && !(es[0].Key() == k && Keeps(faults(es[0]))) {
      var i :| 0 <= i < |es| && es[i].Key() == k && Keeps(faults(es[i]));
      assert es[1..][i - 1].Key() == k;
    }
  }

  /** Storing a new batch keeps the old rows, adds the kept places with their events, and nothing else. */
  lemma {:induction false} BatchKeeps(rows: Rows, from: nat, es: seq<Entry>, faults: Faults, handler: Handler, k: Key)
    requires Ordered(es) && AllNew(rows, es)
    ensures
      var r := StoreBatch(rows, from, es, faults, handler);
      && (k in r.0 <==> k in rows || Kept(es, faults, k)) && r.1 == MaxStored(from, es, faults)
      && (k in rows ==> r.0[k] == rows[k])
    decreases |es|
  {
    if es != [] {
      var e := es[0];
      var first := StoreOne(rows, e, faults(e), handler);
      FirstIsNewForRest(rows, es, faults(e), handler);
      KeptCons(es, faults, k);
      BatchKeeps(first, if Succeeds(rows, e, faults(e)) && e.ledger > from then e.ledger else from,
                 es[1..], faults, handler, k);
    }
  }

  lemma {:induction false} KeptEvent(rows: Rows, from: nat, es: seq<Entry>, faults: Faults, handler: Handler, i: nat)
    requires Ordered(es) && AllNew(rows, es) && i < |es| && Keeps(faults(es[i]))
    ensures
      var r := StoreBatch(rows, from, es, faults, handler).0;
      es[i].Key() in r && r[es[i].Key()].event == es[i].event
    decreases |es|
  {
    var e := es[0];
    var first := StoreOne(rows, e, faults(e), handler);
    var next := if Succeeds(rows, e, faults(e)) && e.ledger > from then e.ledger else from;
    FirstIsNewForRest(rows, es, faults(e), handler);
    if i == 0 {
      BatchKeeps(first, next, es[1..], faults, handler, e.Key());
    } else {
      KeptEvent(first, next, es[1..], faults, handler, i - 1);
    }
  }

  lemma {:induction false} MaxStoredBounds(from: nat, es: seq<Entry>, faults: Faults, last: nat)
    requires forall i :: 0 <= i < |es| ==> es[i].ledger <= last
    ensures from <= MaxStored(from, es, faults) && (from <= last ==> MaxStored(from, es, faults) <= last)
    decreases |es|
  {
    if es != [] {
      forall i | 0 <= i < |es| - 1 ensures es[1..][i].ledger <= last {
        assert es[1..][i] == es[i + 1];
      }
      MaxStoredBounds(if faults(es[0]) == NoFault && es[0].ledger > from then es[0].ledger else from,
                      es[1..], faults, last);
    }
  }

  /** The kept events of the batch are exactly those up to ledger `c`. */
  predicate KeptUpTo(es: seq<Entry>, faults: Faults, c: nat) {
    forall i :: 0 <= i < |es| ==> (Keeps(faults(es[i])) <==> es[i].ledger <= c)
  }

  /** What a successful query after `c` delivers is new to rows that end at `c`. */
  lemma BatchIsNew(rows: Rows, h: History, c: nat)
    requires Stored(rows, h, c)
    ensures Ordered(Fetch(h, c + 1, true).0) && AllNew(rows, Fetch(h, c + 1, true).0)
  {
    BatchFacts(h, c);
    var batch := Fetch(h, c + 1, true).0;
    forall i | 0 <= i < |batch| ensures batch[i].Key() !in rows {
      assert IsEntry(h, c + 1, batch[i]);
    }
  }

  lemma IndexFaultyIs(s: State, h: History, hashOk: HashOracle, handler: Handler, faults: Faults)
    requires Fetch(h, s.cursor + 1, true).0 != []
    ensures
      var s' := IndexFaulty(s, h, true, hashOk, handler, faults);
      (s'.rows, s'.cursor) == StoreBatch(s.rows, s.cursor, Fetch(h, s.cursor + 1, true).0, faults, handler)
  {
    var (events, head) := Fetch(h, s.cursor + 1, true);
    var seen := if head > s.cursor then s.(latest := head) else s;
    var r := StoreBatch(s.rows, s.cursor, events, faults, handler);
    MoveToIs(seen.(rows := r.0), s, h, r.1, hashOk);
  }

  /** What a row of a kept event holds. */
  lemma KeptRow(rows: Rows, h: History, c: nat, batch: seq<Entry>, handler: Handler, faults: Faults, k: Key)
    requires Stored(rows, h, c) && Ordered(batch) && AllNew(rows, batch)
    requires forall i :: 0 <= i < |batch| ==> IsEntry(h, c + 1, batch[i])
    ensures
      var r := StoreBatch(rows, c, batch, faults, handler);
      && r.1 == MaxStored(c, batch, faults)
      && (k in r.0 <==> Canonical(h, c, k) || Kept(batch, faults, k))
      && (k in r.0 ==> Canonical(h, k.0, k) && r.0[k].event == EventAt(h, k))
  {
    BatchKeeps(rows, c, batch, faults, handler, k);
    if Kept(batch, faults, k) {
      var i :| 0 <= i < |batch| && batch[i].Key() == k && Keeps(faults(batch[i]));
      KeptEvent(rows, c, batch, faults, handler, i);
      assert IsEntry(h, c + 1, batch[i]);
    }
  }

  /** After a faulty batch: which rows there are, what they hold, and where the cursor is. */
  lemma FaultyRows(s: State, h: History, hashOk: HashOracle, handler: Handler, faults: Faults, k: Key)
    requires Stored(s.rows, h, s.cursor) && Fetch(h, s.cursor + 1, true).0 != []
    ensures
      var batch := Fetch(h, s.cursor + 1, true).0;
      var s' := IndexFaulty(s, h, true, hashOk, handler, faults);
      && s'.cursor == MaxStored(s.cursor, batch, faults)
      && (k in s'.rows <==> Canonical(h, s.cursor, k) || Kept(batch, faults, k))
      && (k in s'.rows ==> Canonical(h, k.0, k) && s'.rows[k].event == EventAt(h, k))
  {
    BatchIsNew(s.rows, h, s.cursor);
    BatchFacts(h, s.cursor);
    IndexFaultyIs(s, h, hashOk, handler, faults);
    KeptRow(s.rows, h, s.cursor, Fetch(h, s.cursor + 1, true).0, handler, faults, k);
  }

  /** The condition of `FaultyPollExactIff`. */
  ghost predicate FaultsHarmless(h: History, c: nat, faults: Faults) {
    var batch := Fetch(h, c + 1, true).0;
    var c' := MaxStored(c, batch, faults);
    KeptUpTo(batch, faults, c') && (c' == MaxLedger(c, batch) ==> CutWhole(h, c + 1))
  }

  lemma KeptIsCovered(batch: seq<Entry>, faults: Faults, c': nat, k: Key)
    requires KeptUpTo(batch, faults, c') && Kept(batch, faults, k)
    ensures k.0 <= c'
  {
  }

  /** The new cursor is not behind the old one and not beyond the batch. */
  lemma CursorBounds(h: History, c: nat, faults: Faults)
    requires Fetch(h, c + 1, true).0 != []
    ensures
      var batch := Fetch(h, c + 1, true).0;
      c <= MaxStored(c, batch, faults) <= MaxLedger(c, batch)
  {
    var batch := Fetch(h, c + 1, true).0;
    BatchLedgers(h, c);
    assert batch[0].ledger <= MaxLedger(c, batch);
    MaxStoredBounds(c, batch, faults, MaxLedger(c, batch));
  }

  /** Kept events of the batch are at or below the cursor, and lost ones above it. */
  lemma RowsEndAtCursor(s: State, h: History, hashOk: HashOracle, handler: Handler, faults: Faults, k: Key)
    requires s.cursor <= |h| && Stored(s.rows, h, s.cursor)
    requires Fetch(h, s.cursor + 1, true).0 != [] && FaultsHarmless(h, s.cursor, faults)
    ensures
      var s' := IndexFaulty(s, h, true, hashOk, handler, faults);
      k in s'.rows ==> Canonical(h, s'.cursor, k) && s'.rows[k].event == EventAt(h, k)
  {
    var c := s.cursor;
    var batch := Fetch(h, c + 1, true).0;
    FaultyRows(s, h, hashOk, handler, faults, k);
    CursorBounds(h, c, faults);
    if Kept(batch, faults, k) {
      KeptIsCovered(batch, faults, MaxStored(c, batch, faults), k);
    }
  }

  lemma CursorIsCovered(s: State, h: History, hashOk: HashOracle, handler: Handler, faults: Faults, k: Key)
    requires s.cursor <= |h| && Stored(s.rows, h, s.cursor)
    requires Fetch(h, s.cursor + 1, true).0 != [] && FaultsHarmless(h, s.cursor, faults)
    ensures
      var s' := IndexFaulty(s, h, true, hashOk, handler, faults);
      Canonical(h, s'.cursor, k) ==> k in s'.rows
  {
    FaultyRows(s, h, hashOk, handler, faults, k);
    CoveredIsKept(h, s.cursor, faults, k);
  }

  lemma CoveredIsDelivered(h: History, c: nat, faults: Faults, k: Key)
    requires Fetch(h, c + 1, true).0 != [] && FaultsHarmless(h, c, faults)
    requires c < k.0 && Canonical(h, MaxStored(c, Fetch(h, c + 1, true).0, faults), k)
    ensures Delivered(Fetch(h, c + 1, true).0, k)
  {
    CursorBounds(h, c, faults);
    DeliveredBelow(h, c, k);
  }

  lemma CoveredIsKept(h: History, c: nat, faults: Faults, k: Key)
    requires Fetch(h, c + 1, true).0 != [] && FaultsHarmless(h, c, faults)
    ensures
      var batch := Fetch(h, c + 1, true).0;
      Canonical(h, MaxStored(c, batch, faults), k) ==> Canonical(h, c, k) || Kept(batch, faults, k)
  {
    var batch := Fetch(h, c + 1, true).0;
    if Canonical(h, MaxStored(c, batch, faults), k) && k.0 > c {
      CoveredIsDelivered(h, c, faults, k);
      DeliveredIsKept(batch, faults, MaxStored(c, batch, faults), k);
    }
  }

  lemma DeliveredIsKept(es: seq<Entry>, faults: Faults, c: nat, k: Key)
    requires KeptUpTo(es, faults, c) && k.0 <= c && Delivered(es, k)
    ensures Kept(es, faults, k)
  {
    var i :| 0 <= i < |es| && es[i].Key() == k;
    assert Keeps(faults(es[i]));
  }

  lemma HarmlessStores(s: State, h: History, hashOk: HashOracle, handler: Handler, faults: Faults)
    requires s.cursor <= |h| && Stored(s.rows, h, s.cursor)
    requires Fetch(h, s.cursor + 1, true).0 != [] && FaultsHarmless(h, s.cursor, faults)
    ensures
      var s' := IndexFaulty(s, h, true, hashOk, handler, faults);
      Stored(s'.rows, h, s'.cursor)
  {
    var s' := IndexFaulty(s, h, true, hashOk, handler, faults);
    forall k | k in s'.rows ensures Canonical(h, s'.cursor, k) && s'.rows[k].event == EventAt(h, k) {
      RowsEndAtCursor(s, h, hashOk, handler, faults, k);
    }
    forall k: Key | Canonical(h, s'.cursor, k) ensures k in s'.rows {
      CursorIsCovered(s, h, hashOk, handler, faults, k);
    }
  }

  lemma BatchLedgers(h: History, c: nat)
    ensures
      var batch := Fetch(h, c + 1, true).0;
      forall i :: 0 <= i < |batch| ==>
        c < batch[i].ledger <= MaxLedger(c, batch) && Canonical(h, batch[i].ledger, batch[i].Key())
  {
    var batch := Fetch(h, c + 1, true).0;
    BatchFacts(h, c);
    forall i | 0 <= i < |batch|
      ensures c < batch[i].ledger <= MaxLedger(c, batch) && Canonical(h, batch[i].ledger, batch[i].Key())
    {
      assert IsEntry(h, c + 1, batch[i]);
      OrderedBelowLast(batch, i);
    }
  }

  /** A kept event above the cursor, or a lost one below it, breaks the agreement of rows and cursor. */
  lemma MisplacedBreaks(s: State, h: History, hashOk: HashOracle, handler: Handler, faults: Faults, i: nat)
    requires s.cursor <= |h| && Stored(s.rows, h, s.cursor) && i < |Fetch(h, s.cursor + 1, true).0|
    requires
      var batch := Fetch(h, s.cursor + 1, true).0;
      !(Keeps(faults(batch[i])) <==> batch[i].ledger <= MaxStored(s.cursor, batch, faults))
    ensures
      var s' := IndexFaulty(s, h, true, hashOk, handler, faults);
      !Stored(s'.rows, h, s'.cursor)
  {
    var batch := Fetch(h, s.cursor + 1, true).0;
    var s' := IndexFaulty(s, h, true, hashOk, handler, faults);
    BatchPlace(h, s.cursor, i);
    FaultyRows(s, h, hashOk, handler, faults, batch[i].Key());
    KeptAtPlace(batch, faults, i);
    PlaceTells(s'.rows, h, s.cursor, s'.cursor, batch[i].Key());
  }

  lemma BatchPlace(h: History, c: nat, i: nat)
    requires i < |Fetch(h, c + 1, true).0|
    ensures
      var batch := Fetch(h, c + 1, true).0;
      Ordered(batch) && c < batch[i].ledger && Canonical(h, batch[i].ledger, batch[i].Key())
  {
    BatchFacts(h, c);
    BatchLedgers(h, c);
  }

  /** A place above `c` has to have a row exactly when it is not above `c'`. */
  lemma PlaceTells(rows: Rows, h: History, c: nat, c': nat, k: Key)
    requires c < k.0 && Canonical(h, k.0, k) && !(k in rows <==> k.0 <= c')
    ensures !Canonical(h, c, k) && !Stored(rows, h, c')
  {
  }

  lemma CutBreaks(s: State, h: History, hashOk: HashOracle, handler: Handler, faults: Faults)
    requires s.cursor <= |h| && Stored(s.rows, h, s.cursor) && !CutWhole(h, s.cursor + 1)
    requires Fetch(h, s.cursor + 1, true).0 != []
    requires
      var batch := Fetch(h, s.cursor + 1, true).0;
      MaxStored(s.cursor, batch, faults) == MaxLedger(s.cursor, batch)
    ensures
      var s' := IndexFaulty(s, h, true, hashOk, handler, faults);
      !Stored(s'.rows, h, s'.cursor)
  {
    var c := s.cursor;
    var batch := Fetch(h, c + 1, true).0;
    var k := CutBatchIsIncomplete(h, c);
    BatchLedgers(h, c);
    FaultyRows(s, h, hashOk, handler, faults, k);
    assert c < k.0 by {
      assert batch[0].ledger <= MaxLedger(c, batch);
    }
    KeptIsDelivered(batch, faults, k);
  }

  lemma KeptIsDelivered(es: seq<Entry>, faults: Faults, k: Key)
    ensures Kept(es, faults, k) ==> Delivered(es, k)
  {
  }

  /** Whatever breaks the condition leaves a row beyond the cursor or an event below it out. */
  lemma HarmfulBreaks(s: State, h: History, hashOk: HashOracle, handler: Handler, faults: Faults)
    requires s.cursor <= |h| && Stored(s.rows, h, s.cursor)
    requires Fetch(h, s.cursor + 1, true).0 != [] && !FaultsHarmless(h, s.cursor, faults)
    ensures
      var s' := IndexFaulty(s, h, true, hashOk, handler, faults);
      !Stored(s'.rows, h, s'.cursor)
  {
    var batch := Fetch(h, s.cursor + 1, true).0;
    var c' := MaxStored(s.cursor, batch, faults);
    if !KeptUpTo(batch, faults, c') {
      var i :| 0 <= i < |batch| && !(Keeps(faults(batch[i])) <==> batch[i].ledger <= c');
      MisplacedBreaks(s, h, hashOk, handler, faults, i);
    } else {
      CutBreaks(s, h, hashOk, handler, faults);
    }
  }

  lemma KeptAtPlace(es: seq<Entry>, faults: Faults, i: nat)
    requires Ordered(es) && i < |es|
    ensures Kept(es, faults, es[i].Key()) <==> Keeps(faults(es[i]))
  {
    forall j | 0 <= j < |es| ensures es[j].Key() == es[i].Key() ==> j == i {
      PlacesDiffer(es, i, j);
    }
  }

  lemma PlacesDiffer(es: seq<Entry>, i: nat, j: nat)
    requires Ordered(es) && i < |es| && j < |es|
    ensures i != j ==> es[i].Key() != es[j].Key()
  {
    assert i < j ==> Before(es[i], es[j]);
    assert j < i ==> Before(es[j], es[i]);
  }

  /**
   The exact condition of a poll that fetched events from a database that may fail to store
   some of them: the rows are the events up to the new cursor if and only if the events
   whose rows are kept are exactly those up to the highest ledger that was stored without
   an error, and that ledger is not cut. An event whose row is lost below a later success
   is passed for good, since the next query starts behind the cursor.
   */
  lemma FaultyPollExactIff(s: State, h: History, hashOk: HashOracle, handler: Handler, faults: Faults)
    requires s.cursor <= |h| && Stored(s.rows, h, s.cursor) && Fetch(h, s.cursor + 1, true).0 != []
    ensures
      var batch := Fetch(h, s.cursor + 1, true).0;
      var s' := IndexFaulty(s, h, true, hashOk, handler, faults);
      && s'.cursor == MaxStored(s.cursor, batch, faults)
      && (Stored(s'.rows, h, s'.cursor) <==>
          KeptUpTo(batch, faults, s'.cursor) && (s'.cursor == MaxLedger(s.cursor, batch) ==> CutWhole(h, s.cursor + 1)))
  {
    FaultyRows(s, h, hashOk, handler, faults, (0, 0));
    if FaultsHarmless(h, s.cursor, faults) {
      HarmlessStores(s, h, hashOk, handler, faults);
    } else {
      HarmfulBreaks(s, h, hashOk, handler, faults);
    }
  }
}
