/** The indexer stays in step with the chain, and recovers it after a reorganisation. */
module IndexerSync {
  import opened Text
  import opened Chain
  import opened EventRows
  import opened Indexer

  /** The rows hold exactly the events of the ledgers 1..c of `h`, each with its content. */
  ghost predicate Stored(rows: Rows, h: History, c: nat) {
    && (forall k :: k in rows ==> Canonical(h, c, k) && rows[k].event == EventAt(h, k))
    && (forall k: Key :: Canonical(h, c, k) ==> k in rows)
  }

  /** The checkpoint is where the cursor is, with the hash of the history up to there. */
  predicate SyncedHash(s: State, base: History) {
    && s.cursor == |base|
    && (s.cursor > 0 ==> s.sync == Some(Checkpoint(s.cursor, Some(HashOf(base)))))
    && (s.cursor == 0 && s.sync.Some? ==> s.sync.value.ledger == 0)
  }

  /** The indexer has indexed exactly the history `base` and remembers its hash. */
  ghost predicate Synced(s: State, base: History) {
    SyncedHash(s, base) && Stored(s.rows, base, |base|)
  }

  const ALL_OK: HashOracle := (n: nat) => true

  lemma StoredPrefix(rows: Rows, h: History, c: nat)
    requires c <= |h|
    ensures Stored(rows, h, c) <==> Stored(rows, h[..c], c)
  {
    assert forall k: Key :: Canonical(h, c, k) <==> Canonical(h[..c], c, k);
    assert forall k: Key :: Canonical(h, c, k) ==> EventAt(h, k) == EventAt(h[..c], k);
  }

  // ------------------------------------------------------------------- batches

  lemma {:induction false} MaxOfOrdered(from: nat, es: seq<Entry>)
    requires Ordered(es) && es != [] && from < es[0].ledger
    ensures MaxLedger(from, es) == es[|es| - 1].ledger
    decreases |es|
  {
    var rest := es[1..];
    if rest != [] {
      assert Before(es[0], es[1]);
      if es[0].ledger < rest[0].ledger {
        MaxOfOrdered(es[0].ledger, rest);
      } else {
        MaxOfOrderedFrom(es[0].ledger, rest);
      }
    }
  }

  lemma {:induction false} MaxOfOrderedFrom(from: nat, es: seq<Entry>)
    requires Ordered(es) && es != [] && from == es[0].ledger
    ensures MaxLedger(from, es) == es[|es| - 1].ledger
    decreases |es|
  {
    var rest := es[1..];
    if rest != [] {
      assert Before(es[0], es[1]);
      if es[0].ledger < rest[0].ledger {
        MaxOfOrdered(es[0].ledger, rest);
      } else {
        MaxOfOrderedFrom(es[0].ledger, rest);
      }
    }
  }

  /** What a successful query after `c` delivers. */
  lemma BatchFacts(h: History, c: nat)
    ensures
      var batch := Fetch(h, c + 1, true).0;
      && Ordered(batch)
      && (forall i :: 0 <= i < |batch| ==> IsEntry(h, c + 1, batch[i]))
      && (batch == [] <==> forall k: Key :: c < k.0 ==> !Canonical(h, k.0, k))
      && (batch != [] ==> c < MaxLedger(c, batch) <= |h| && MaxLedger(c, batch) == batch[|batch| - 1].ledger)
  {
    var all := EntriesFrom(h, c + 1);
    var batch := Fetch(h, c + 1, true).0;
    EntriesOrdered(h, c + 1);
    forall i | 0 <= i < |batch| ensures IsEntry(h, c + 1, batch[i]) {
      assert batch[i] == all[i];
      EntriesAreEvents(h, c + 1, batch[i]);
    }
    if batch == [] {
      forall k: Key | c < k.0 ensures !Canonical(h, k.0, k) {
        if Canonical(h, k.0, k) {
          EntriesAreEvents(h, c + 1, Entry(k.0, k.1, EventAt(h, k)));
          assert false;
        }
      }
    } else {
      assert Canonical(h, batch[0].ledger, batch[0].Key());
      MaxOfOrdered(c, batch);
      assert IsEntry(h, c + 1, batch[|batch| - 1]);
    }
  }

  /** Where an ordered sequence is cut between two ledgers, everything behind is in later ledgers. */
  lemma BehindCutIsLater(es: seq<Entry>, n: nat, p: nat)
    requires Ordered(es) && 1 <= n < |es| && es[n - 1].ledger != es[n].ledger && p < |es|
    ensures p >= n ==> es[p].ledger > es[n - 1].ledger
  {
    assert Before(es[n - 1], es[n]);
    if p > n {
      assert Before(es[n], es[p]);
    }
  }

  lemma OrderedBelowLast(es: seq<Entry>, i: nat)
    requires Ordered(es) && i < |es|
    ensures es[i].ledger <= es[|es| - 1].ledger
  {
    assert i == |es| - 1 || Before(es[i], es[|es| - 1]);
  }

  lemma PlaceOf(h: History, lo: nat, k: Key) returns (p: nat)
    requires lo <= k.0 && Canonical(h, k.0, k)
    ensures p < |EntriesFrom(h, lo)| && EntriesFrom(h, lo)[p].Key() == k
  {
    var e := Entry(k.0, k.1, EventAt(h, k));
    EntriesAreEvents(h, lo, e);
    p :| 0 <= p < |EntriesFrom(h, lo)| && EntriesFrom(h, lo)[p] == e;
  }

  lemma BatchEnd(h: History, c: nat)
    requires Fetch(h, c + 1, true).0 != []
    ensures
      var batch := Fetch(h, c + 1, true).0;
      MaxLedger(c, batch) == batch[|batch| - 1].ledger
  {
    BatchFacts(h, c);
  }

  lemma BehindIsNotEarlier(es: seq<Entry>, n: nat, p: nat)
    requires Ordered(es) && n < |es| && p < |es|
    ensures p >= n ==> es[p].ledger >= es[n].ledger
  {
    if p > n {
      assert Before(es[n], es[p]);
    }
  }

  /** A limited batch holds every entry below its last ledger, and of that ledger too if it is not cut. */
  lemma LimitedIsComplete(all: seq<Entry>, p: nat)
    requires Ordered(all) && p < |all|
    requires
      var last := Limited(all)[|Limited(all)| - 1].ledger;
      all[p].ledger < last || (all[p].ledger == last && CutsBetween(all))
    ensures p < |Limited(all)| && Limited(all)[p] == all[p]
  {
    if |all| > BATCH_SIZE {
      if CutsBetween(all) {
        BehindCutIsLater(all, BATCH_SIZE, p);
      } else {
        BehindIsNotEarlier(all, BATCH_SIZE - 1, p);
      }
    }
  }

  lemma PlaceIsDelivered(h: History, lo: nat, all: seq<Entry>, k: Key)
    requires all == EntriesFrom(h, lo) && all != [] && lo <= k.0 && Canonical(h, k.0, k)
    requires
      var last := Limited(all)[|Limited(all)| - 1].ledger;
      k.0 < last || (k.0 == last && CutsBetween(all))
    ensures Delivered(Limited(all), k)
  {
    EntriesOrdered(h, lo);
    var p := PlaceOf(h, lo, k);
    LimitedIsComplete(all, p);
    assert Limited(all)[p].Key() == k;
  }

  /** Below the last ledger of a batch, and up to it when no ledger is cut, every event is in the batch. */
  lemma DeliveredBelow(h: History, c: nat, k: Key)
    requires Fetch(h, c + 1, true).0 != [] && c < k.0 && Canonical(h, k.0, k)
    requires
      var last := MaxLedger(c, Fetch(h, c + 1, true).0);
      k.0 < last || (k.0 == last && CutWhole(h, c + 1))
    ensures Delivered(Fetch(h, c + 1, true).0, k)
  {
    BatchEnd(h, c);
    PlaceIsDelivered(h, c + 1, EntriesFrom(h, c + 1), k);
  }

  /** A batch that cuts a ledger leaves out an event of its last ledger. */
  lemma CutBatchIsIncomplete(h: History, c: nat) returns (k: Key)
    requires !CutWhole(h, c + 1)
    ensures Fetch(h, c + 1, true).0 != []
    ensures k.0 == MaxLedger(c, Fetch(h, c + 1, true).0) && Canonical(h, k.0, k)
    ensures !Delivered(Fetch(h, c + 1, true).0, k)
  {
    var all := EntriesFrom(h, c + 1);
    var batch := Fetch(h, c + 1, true).0;
    BatchFacts(h, c);
    EntriesOrdered(h, c + 1);
    EntriesAreEvents(h, c + 1, all[BATCH_SIZE]);
    k := all[BATCH_SIZE].Key();
    forall i | 0 <= i < |batch| ensures batch[i].Key() != k {
      assert Before(all[i], all[BATCH_SIZE]);
    }
  }

  /** Storing a batch: which places are there afterwards, and with what content. */
  lemma BatchStored(rows: Rows, h: History, c: nat, handler: Handler, k: Key)
    requires Stored(rows, h, c)
    ensures
      var batch := Fetch(h, c + 1, true).0;
      var rows' := StoreAll(rows, batch, handler);
      && (k in rows' <==> Canonical(h, c, k) || Delivered(batch, k))
      && (k in rows' ==> Canonical(h, k.0, k) && rows'[k].event == EventAt(h, k))
  {
    var batch := Fetch(h, c + 1, true).0;
    BatchFacts(h, c);
    StoreAllKeys(rows, batch, handler, k);
    if Delivered(batch, k) {
      var i :| 0 <= i < |batch| && batch[i].Key() == k;
      assert IsEntry(h, c + 1, batch[i]);
      assert k !in rows;
      StoreAllEvents(rows, batch, handler, i);
    }
  }

  /** The cursor after a poll that needs no rollback. */
  function NewCursor(h: History, c: nat, fetchOk: bool): nat {
    var (events, head) := Fetch(h, c + 1, fetchOk);
    if events != [] then MaxLedger(c, events) else if head > c then head else c
  }

  /** Moving the cursor touches no row, and what it makes of the chain-sync row depends on that row alone. */
  lemma MoveToIs(s: State, t: State, h: History, ledger: nat, hashOk: HashOracle)
    requires s.sync == t.sync
    ensures MoveTo(s, h, ledger, hashOk).rows == s.rows && MoveTo(s, h, ledger, hashOk).cursor == ledger
    ensures MoveTo(s, h, ledger, hashOk).sync == MoveTo(t, h, ledger, hashOk).sync
  {
  }

  /** The three parts of the state after a batch. */
  lemma IndexBatchParts(s: State, h: History, fetchOk: bool, hashOk: HashOracle, handler: Handler)
    ensures
      var (events, head) := Fetch(h, s.cursor + 1, fetchOk);
      var c' := if events != [] then MaxLedger(s.cursor, events) else if head > s.cursor then head else s.cursor;
      var s' := IndexBatch(s, h, fetchOk, hashOk, handler);
      && s'.cursor == c' && s'.rows == StoreAll(s.rows, events, handler)
      && s'.sync == (if events == [] && head <= s.cursor then s.sync else MoveTo(s, h, c', hashOk).sync)
  {
    var (events, head) := Fetch(h, s.cursor + 1, fetchOk);
    var seen := if head > s.cursor then s.(latest := head) else s;
    if events == [] {
      MoveToIs(seen, s, h, head, hashOk);
    } else {
      MoveToIs(seen.(rows := StoreAll(s.rows, events, handler)), s, h, MaxLedger(s.cursor, events), hashOk);
    }
  }

  lemma IndexBatchRows(s: State, h: History, fetchOk: bool, hashOk: HashOracle, handler: Handler)
    ensures IndexBatch(s, h, fetchOk, hashOk, handler).cursor == NewCursor(h, s.cursor, fetchOk)
    ensures IndexBatch(s, h, fetchOk, hashOk, handler).rows
            == StoreAll(s.rows, Fetch(h, s.cursor + 1, fetchOk).0, handler)
  {
    IndexBatchParts(s, h, fetchOk, hashOk, handler);
  }

  /** What a poll step needs for its cursor to tell the truth. */
  ghost predicate BatchSound(h: History, c: nat, fetchOk: bool) {
    if fetchOk then CutWhole(h, c + 1) else c + 1 > |h| || h[c].events == []
  }

  lemma GoodBatchStores(rows: Rows, h: History, c: nat, handler: Handler)
    requires Stored(rows, h, c) && CutWhole(h, c + 1)
    ensures Stored(StoreAll(rows, Fetch(h, c + 1, true).0, handler), h, NewCursor(h, c, true))
  {
    var rows' := StoreAll(rows, Fetch(h, c + 1, true).0, handler);
    var c' := NewCursor(h, c, true);
    forall k | k in rows' ensures Canonical(h, c', k) && rows'[k].event == EventAt(h, k) {
      BatchStored(rows, h, c, handler, k);
      NothingBeyond(h, c, k);
    }
    forall k: Key | Canonical(h, c', k) ensures k in rows' {
      BatchStored(rows, h, c, handler, k);
      NothingMissing(h, c, k);
    }
  }

  lemma NothingBeyond(h: History, c: nat, k: Key)
    ensures Canonical(h, c, k) ==> Canonical(h, NewCursor(h, c, true), k)
    ensures Delivered(Fetch(h, c + 1, true).0, k) ==> Canonical(h, NewCursor(h, c, true), k)
  {
    var batch := Fetch(h, c + 1, true).0;
    BatchFacts(h, c);
    if Delivered(batch, k) {
      var i :| 0 <= i < |batch| && batch[i].Key() == k;
      OrderedBelowLast(batch, i);
      assert IsEntry(h, c + 1, batch[i]);
    }
  }

  lemma NothingMissing(h: History, c: nat, k: Key)
    requires CutWhole(h, c + 1) && Canonical(h, NewCursor(h, c, true), k)
    ensures Canonical(h, c, k) || Delivered(Fetch(h, c + 1, true).0, k)
  {
    BatchFacts(h, c);
    if c < k.0 && Fetch(h, c + 1, true).0 != [] {
      DeliveredBelow(h, c, k);
    }
  }

  /**
   The exact condition of a poll: after it the rows are the events up to the cursor if
   and only if the query succeeded without cutting a ledger, or it failed at a ledger
   without events (a failed query still moves the cursor past that ledger).
   */
  lemma PollExactIff(s: State, h: History, fetchOk: bool, hashOk: HashOracle, handler: Handler)
    requires s.cursor <= |h| && Stored(s.rows, h, s.cursor)
    ensures
      var s' := IndexBatch(s, h, fetchOk, hashOk, handler);
      Stored(s'.rows, h, s'.cursor) <==> BatchSound(h, s.cursor, fetchOk)
  {
    var c := s.cursor;
    var s' := IndexBatch(s, h, fetchOk, hashOk, handler);
    IndexBatchRows(s, h, fetchOk, hashOk, handler);
    if fetchOk {
      if CutWhole(h, c + 1) {
        GoodBatchStores(s.rows, h, c, handler);
      } else {
        var k := CutBatchIsIncomplete(h, c);
        BatchStored(s.rows, h, c, handler, k);
        BatchFacts(h, c);
      }
    } else {
      assert s'.rows == s.rows && s'.cursor == c + 1;
      if c + 1 <= |h| && h[c].events != [] {
        var k: Key := (c + 1, 0);
        assert Canonical(h, c + 1, k) && !Canonical(h, c, k);
      } else {
        assert forall k: Key :: Canonical(h, c + 1, k) <==> Canonical(h, c, k);
      }
    }
  }

  // --------------------------------------------------------------------- polls

  /** After a successful batch the cursor is on the chain, and further unless it was at its head. */
  lemma NewCursorBounds(h: History, c: nat)
    requires c <= |h|
    ensures c <= NewCursor(h, c, true) <= |h| && (c < |h| ==> c < NewCursor(h, c, true))
  {
    BatchFacts(h, c);
  }

  lemma MoveToSync(s: State, h: History, ledger: nat)
    requires 0 < ledger <= |h| && CheckpointOf(s).ledger <= ledger
    ensures MoveTo(s, h, ledger, ALL_OK).sync == Some(Checkpoint(ledger, Some(HashOf(h[..ledger]))))
  {
    assert FetchHash(h, ledger, ALL_OK(ledger)) == Some(HashOf(h[..ledger]));
  }

  /** The rows part of being in step. */
  lemma BatchKeepsRows(s: State, h: History, handler: Handler)
    requires s.cursor <= |h| && Stored(s.rows, h[..s.cursor], s.cursor) && CutWhole(h, s.cursor + 1)
    ensures
      var s' := IndexBatch(s, h, true, ALL_OK, handler);
      s.cursor <= s'.cursor <= |h| && Stored(s'.rows, h[..s'.cursor], s'.cursor)
  {
    var s' := IndexBatch(s, h, true, ALL_OK, handler);
    StoredPrefix(s.rows, h, s.cursor);
    PollExactIff(s, h, true, ALL_OK, handler);
    IndexBatchRows(s, h, true, ALL_OK, handler);
    NewCursorBounds(h, s.cursor);
    StoredPrefix(s'.rows, h, s'.cursor);
  }

  /** The checkpoint part. */
  lemma BatchKeepsHash(s: State, h: History, handler: Handler)
    requires s.cursor <= |h| && SyncedHash(s, h[..s.cursor])
    ensures
      var s' := IndexBatch(s, h, true, ALL_OK, handler);
      s'.cursor <= |h| && SyncedHash(s', h[..s'.cursor])
  {
    var s' := IndexBatch(s, h, true, ALL_OK, handler);
    IndexBatchParts(s, h, true, ALL_OK, handler);
    NewCursorBounds(h, s.cursor);
    if s'.cursor > s.cursor {
      MoveToSync(s, h, s'.cursor);
    }
  }

  /** A successful batch on the chain that was indexed keeps the indexer in step. */
  lemma BatchKeepsSync(s: State, h: History, handler: Handler)
    requires s.cursor <= |h| && Synced(s, h[..s.cursor]) && CutWhole(h, s.cursor + 1)
    ensures
      var s' := IndexBatch(s, h, true, ALL_OK, handler);
      && s.cursor <= s'.cursor <= |h| && Synced(s', h[..s'.cursor])
      && (s.cursor < |h| ==> s.cursor < s'.cursor)
  {
    BatchKeepsRows(s, h, handler);
    BatchKeepsHash(s, h, handler);
    IndexBatchRows(s, h, true, ALL_OK, handler);
    NewCursorBounds(h, s.cursor);
  }

  /**
   A reorganisation is detected exactly when the chain still reaches the cursor and
   differs from the indexed history somewhere below it.
   */
  lemma ReorgDetectedIff(s: State, base: History, h: History)
    requires Synced(s, base)
    ensures ReorgDetected(s, h, ALL_OK) <==> s.cursor <= |h| && h[..s.cursor] != base
  {
    if 0 < s.cursor <= |h| && HashOf(h[..s.cursor]) == HashOf(base) {
      HashInjective(h[..s.cursor], base);
    }
  }

  /** The chain differs from the indexed history no deeper than the rollback reaches. */
  ghost predicate WithinDepth(base: History, h: History, depth: nat) {
    var f := ForkLedger(|base|, depth);
    f <= |h| && h[..f] == base[..f]
  }

  ghost predicate SameEventsUpTo(a: History, b: History, f: nat)
    requires f <= |a| && f <= |b|
  {
    forall n :: 0 <= n < f ==> a[n].events == b[n].events
  }

  lemma KeptRows(rows: Rows, base: History, f: nat)
    requires Stored(rows, base, |base|) && f <= |base|
    ensures Stored(DropAbove(rows, f), base, f)
  {
  }

  /**
   What a rollback leaves: both checkpoints at the fork point and no row above it. The
   rows that remain are the new chain's up to there if and only if both histories hold
   the same events up to the fork point.
   */
  lemma RollbackLeaves(s: State, base: History, h: History, depth: nat)
    requires Synced(s, base) && s.cursor <= |h| && ReorgDetected(s, h, ALL_OK)
    ensures
      var s' := HandleReorg(s, h, depth, ALL_OK);
      var f := ForkLedger(s.cursor, depth);
      && f <= |h| && s'.cursor == f && s'.sync.Some? && s'.sync.value.ledger == f
      && (forall k :: k in s'.rows ==> k.0 <= f)
      && (Stored(s'.rows, h, f) <==> SameEventsUpTo(h, base, f))
  {
    var s' := HandleReorg(s, h, depth, ALL_OK);
    var f := ForkLedger(s.cursor, depth);
    KeptRows(s.rows, base, f);
    if SameEventsUpTo(h, base, f) {
      assert forall k: Key :: Canonical(h, f, k) <==> Canonical(base, f, k);
    } else {
      var n :| 0 <= n < f && h[n].events != base[n].events;
      if Stored(s'.rows, h, f) {
        SameEvents(s'.rows, h, base, f, n + 1);
      }
    }
  }

  lemma SameEvents(rows: Rows, a: History, b: History, f: nat, n: nat)
    requires Stored(rows, a, f) && Stored(rows, b, f) && 1 <= n <= f <= |a| && f <= |b|
    ensures a[n - 1].events == b[n - 1].events
  {
    var x, y := a[n - 1].events, b[n - 1].events;
    forall i: nat ensures (i < |x| <==> (n, i) in rows) && (i < |y| <==> (n, i) in rows) {
      var k: Key := (n, i);
      assert Canonical(a, f, k) <==> k in rows;
      assert Canonical(b, f, k) <==> k in rows;
    }
    assert (n, |x|) !in rows && (n, |y|) !in rows;
    forall i | 0 <= i < |x| ensures x[i] == y[i] {
      var k: Key := (n, i);
      assert k in rows;
      assert rows[k].event == EventAt(a, k) == EventAt(b, k);
    }
  }

  lemma HandleReorgSyncs(s: State, base: History, h: History, depth: nat)
    requires Synced(s, base) && |base| <= |h| && WithinDepth(base, h, depth)
    ensures
      var s' := HandleReorg(s, h, depth, ALL_OK);
      && s'.cursor <= |h| && Synced(s', h[..s'.cursor])
      && s'.cursor == (if h[..|base|] == base then s.cursor else ForkLedger(s.cursor, depth))
  {
    ReorgDetectedIff(s, base, h);
    if h[..|base|] != base {
      var s' := HandleReorg(s, h, depth, ALL_OK);
      var f := ForkLedger(|base|, depth);
      RollbackLeaves(s, base, h, depth);
      forall n | 0 <= n < f ensures h[n].events == base[n].events {
        assert h[..f][n] == base[..f][n];
      }
      StoredPrefix(s'.rows, h, f);
    }
  }

  /** One poll keeps the indexer in step with the chain it polls, through a fork within the depth. */
  lemma PollKeepsSync(s: State, base: History, h: History, depth: nat, handler: Handler)
    requires Synced(s, base) && |base| <= |h| && WithinDepth(base, h, depth) && WholeLedgers(h)
    ensures
      var s' := Poll(s, h, depth, true, ALL_OK, handler);
      && s'.cursor <= |h| && Synced(s', h[..s'.cursor])
      && (h[..|base|] == base && s.cursor < |h| ==> s.cursor < s'.cursor)
      && (h[..|base|] == base ==> s.cursor <= s'.cursor)
  {
    HandleReorgSyncs(s, base, h, depth);
    var s1 := HandleReorg(s, h, depth, ALL_OK);
    assert CutWhole(h, s1.cursor + 1) by {
      if s1.cursor == |h| {
        assert EntriesFrom(h, |h| + 1) == [];
      }
    }
    BatchKeepsSync(s1, h, handler);
  }

  /** A poll's circumstances: the chain at that moment and the handlers' behaviour. */
  datatype Circumstance = Circumstance(chain: History, handler: Handler)

  function PollRun(s: State, polls: seq<Circumstance>, depth: nat): State
    decreases |polls|
  {
    if polls == [] then s
    else PollRun(Poll(s, polls[0].chain, depth, true, ALL_OK, polls[0].handler), polls[1..], depth)
  }

  /** At every poll the chain reaches the cursor and forked, if at all, within the depth. */
  ghost predicate Followable(s: State, base: History, polls: seq<Circumstance>, depth: nat)
    decreases |polls|
  {
    polls == [] ||
    (var h := polls[0].chain;
     && |base| <= |h| && WithinDepth(base, h, depth) && WholeLedgers(h)
     && (var s' := Poll(s, h, depth, true, ALL_OK, polls[0].handler);
         s'.cursor <= |h| && Followable(s', h[..s'.cursor], polls[1..], depth)))
  }

  /**
   Through any sequence of polls and reorganisations of that kind, the stored events
   after the last poll are exactly those of the chain it saw, up to the cursor.
   */
  lemma {:induction false} PollRunStaysInStep(s: State, base: History, polls: seq<Circumstance>, depth: nat)
    requires Synced(s, base) && Followable(s, base, polls, depth) && polls != []
    ensures
      var s' := PollRun(s, polls, depth);
      var h := polls[|polls| - 1].chain;
      s'.cursor <= |h| && Synced(s', h[..s'.cursor]) && Stored(s'.rows, h, s'.cursor)
    decreases |polls|
  {
    var h := polls[0].chain;
    PollKeepsSync(s, base, h, depth, polls[0].handler);
    var s' := Poll(s, h, depth, true, ALL_OK, polls[0].handler);
    StoredPrefix(s'.rows, h, s'.cursor);
    if |polls| > 1 {
      PollRunStaysInStep(s', h[..s'.cursor], polls[1..], depth);
    } else {
      assert PollRun(s', polls[1..], depth) == s';
    }
  }

  /** `n` polls of an unchanging chain; `handler(i)` are the handlers when i polls remain. */
  function PollTimes(s: State, h: History, n: nat, depth: nat, handler: nat -> Handler): State
    decreases n
  {
    if n == 0 then s else PollTimes(Poll(s, h, depth, true, ALL_OK, handler(n)), h, n - 1, depth, handler)
  }

  /** How many polls bring an indexer that has indexed `base` to the head of `h`. */
  function PollsNeeded(base: History, h: History): nat {
    if base <= h then |h| - |base| else |h| + 1
  }

  lemma PrefixIsWithinDepth(h: History, c: nat, depth: nat)
    requires c <= |h|
    ensures WithinDepth(h[..c], h, depth) && PollsNeeded(h[..c], h) == |h| - c
  {
    assert h[..c][..ForkLedger(c, depth)] == h[..ForkLedger(c, depth)];
  }

  /** The indexer is in step with `base`, and `n` polls bring it to the head of `h`. */
  ghost predicate CatchesUp(s: State, base: History, h: History, n: nat, depth: nat) {
    && Synced(s, base) && |base| <= |h| && WithinDepth(base, h, depth) && WholeLedgers(h)
    && n >= PollsNeeded(base, h)
  }

  /** The first of them leaves the rest to go. */
  lemma FirstPoll(s: State, base: History, h: History, n: nat, depth: nat, handler: Handler)
    returns (base1: History)
    requires CatchesUp(s, base, h, n, depth) && n > 0
    ensures CatchesUp(Poll(s, h, depth, true, ALL_OK, handler), base1, h, n - 1, depth)
  {
    PollKeepsSync(s, base, h, depth, handler);
    var s1 := Poll(s, h, depth, true, ALL_OK, handler);
    base1 := h[..s1.cursor];
    PrefixIsWithinDepth(h, s1.cursor, depth);
    assert h[..|base|] == base <==> base <= h;
  }

  lemma {:induction false} PollsReachHead(s: State, base: History, h: History, n: nat, depth: nat,
                                          handler: nat -> Handler)
    requires CatchesUp(s, base, h, n, depth)
    ensures Synced(PollTimes(s, h, n, depth, handler), h)
    decreases n
  {
    if n == 0 {
      assert base == h;
    } else {
      var base1 := FirstPoll(s, base, h, n, depth, handler(n));
      PollsReachHead(Poll(s, h, depth, true, ALL_OK, handler(n)), base1, h, n - 1, depth, handler);
    }
  }

  /**
   Convergence: an indexer in step with one history, faced with a chain that forked
   within the rollback depth and is at least as long as the cursor, is in step with the
   whole new chain after finitely many polls: it holds exactly the events of that chain,
   and both checkpoints are at its head.
   */
  lemma ReorgConvergence(s: State, base: History, h: History, n: nat, depth: nat, handler: nat -> Handler)
    requires Synced(s, base) && |base| <= |h| && WithinDepth(base, h, depth) && WholeLedgers(h)
    requires n >= PollsNeeded(base, h)
    ensures Synced(PollTimes(s, h, n, depth, handler), h)
  {
    PollsReachHead(s, base, h, n, depth, handler);
  }
}
