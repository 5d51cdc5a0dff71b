/**
 The event indexer: stored rows, a working cursor, and a durable checkpoint that
 remembers the hash of the last indexed ledger. A poll first compares that hash with
 the chain and rolls back when it differs, then stores the next batch of events.
 */
module Indexer {
  import opened Text
  import opened Chain
  import opened EventRows

  datatype Checkpoint = Checkpoint(ledger: nat, hash: Option<Hash>)

  /** `cursor` and `latest` are the key/value checkpoints, `sync` the chain-sync row. */
  datatype State = State(rows: Rows, cursor: nat, latest: nat, sync: Option<Checkpoint>)

  /** Which hash lookups succeed, by ledger number. */
  type HashOracle = nat -> bool

  // ---------------------------------------------------------- rollback and poll

  function ForkLedger(previous: nat, depth: nat): nat {
    if previous > depth then previous - depth else 0
  }

  /** The chain reports another hash for the last indexed ledger than the stored one. */
  predicate ReorgDetected(s: State, h: History, hashOk: HashOracle) {
    && s.sync.Some? && s.sync.value.ledger > 0 && s.sync.value.hash.Some?
    && FetchHash(h, s.sync.value.ledger, hashOk(s.sync.value.ledger)).Some?
    && FetchHash(h, s.sync.value.ledger, hashOk(s.sync.value.ledger)) != s.sync.value.hash
  }

  function DropAbove(rows: Rows, fork: nat): Rows {
    map k | k in rows && k.0 <= fork :: rows[k]
  }

  /** Roll back to the fork point when a reorganisation is detected. */
  function HandleReorg(s: State, h: History, depth: nat, hashOk: HashOracle): State {
    if !ReorgDetected(s, h, hashOk) then s
    else
      var fork := ForkLedger(s.sync.value.ledger, depth);
      s.(rows := DropAbove(s.rows, fork), cursor := fork,
         sync := Some(Checkpoint(fork, FetchHash(h, fork, hashOk(fork)))))
  }

  function CheckpointOf(s: State): Checkpoint {
    if s.sync.Some? then s.sync.value else Checkpoint(0, None)
  }

  function AdvanceCheckpoint(s: State, ledger: nat): State {
    var cp := CheckpointOf(s);
    s.(sync := Some(if ledger > cp.ledger then cp.(ledger := ledger) else cp))
  }

  function PersistHash(s: State, h: History, ledger: nat, hashOk: HashOracle): State {
    var hash := FetchHash(h, ledger, hashOk(ledger));
    if ledger == 0 || hash == None then s
    else
      var cp := CheckpointOf(s);
      s.(sync := Some(Checkpoint(if ledger >= cp.ledger then ledger else cp.ledger, hash)))
  }

  /** Both checkpoints and the hash after the cursor reached `ledger`. */
  function MoveTo(s: State, h: History, ledger: nat, hashOk: HashOracle): State {
    PersistHash(AdvanceCheckpoint(s.(cursor := ledger), ledger), h, ledger, hashOk)
  }

  /** The highest ledger of a batch, at least `from`. */
  function MaxLedger(from: nat, es: seq<Entry>): nat
    decreases |es|
  {
    if es == [] then from
    else MaxLedger(if es[0].ledger > from then es[0].ledger else from, es[1..])
  }

  /** Fetch one batch after the cursor, store it and move the cursor. */
  function IndexBatch(s: State, h: History, fetchOk: bool, hashOk: HashOracle, handler: Handler): State {
    var (events, head) := Fetch(h, s.cursor + 1, fetchOk);
    var seen := if head > s.cursor then s.(latest := head) else s;
    if events == [] then
      if head > s.cursor then MoveTo(seen, h, head, hashOk) else seen
    else
      MoveTo(seen.(rows := StoreAll(s.rows, events, handler)), h, MaxLedger(s.cursor, events), hashOk)
  }

  /** Which of the events of a batch the database fails to store. */
  type Faults = Entry -> Fault

  /** The rows and the highest ledger of a successfully stored event after a batch; failed events are passed over. */
  function StoreBatch(rows: Rows, from: nat, es: seq<Entry>, faults: Faults, handler: Handler): (Rows, nat)
    decreases |es|
  {
    if es == [] then (rows, from)
    else
      var e := es[0];
      StoreBatch(StoreOne(rows, e, faults(e), handler),
                 if Succeeds(rows, e, faults(e)) && e.ledger > from then e.ledger else from,
                 es[1..], faults, handler)
  }

  /** As IndexBatch, on a database that may fail. */
  function IndexFaulty(s: State, h: History, fetchOk: bool, hashOk: HashOracle, handler: Handler, faults: Faults): State
  {
    var (events, head) := Fetch(h, s.cursor + 1, fetchOk);
    var seen := if head > s.cursor then s.(latest := head) else s;
    if events == [] then
      if head > s.cursor then MoveTo(seen, h, head, hashOk) else seen
    else
      var (rows, ledger) := StoreBatch(s.rows, s.cursor, events, faults, handler);
      MoveTo(seen.(rows := rows), h, ledger, hashOk)
  }

  function PollFaulty(s: State, h: History, depth: nat, fetchOk: bool, hashOk: HashOracle, handler: Handler,
                      faults: Faults): State
  {
    IndexFaulty(HandleReorg(s, h, depth, hashOk), h, fetchOk, hashOk, handler, faults)
  }

  lemma {:induction false} NothingFails(rows: Rows, from: nat, es: seq<Entry>, faults: Faults, handler: Handler)
    requires forall i :: 0 <= i < |es| ==> faults(es[i]) == NoFault
    ensures StoreBatch(rows, from, es, faults, handler) == (StoreAll(rows, es, handler), MaxLedger(from, es))
    decreases |es|
  {
    if es != [] {
      assert faults(es[0]) == NoFault;
      forall i | 0 <= i < |es| - 1 ensures faults(es[1..][i]) == NoFault {
        assert es[1..][i] == es[i + 1];
      }
      NothingFails(Store(rows, es[0], handler), if es[0].ledger > from then es[0].ledger else from,
                   es[1..], faults, handler);
    }
  }

  /** On a database that does not fail this is the poll that the theorems on convergence speak of. */
  lemma PollWithoutFaults(s: State, h: History, depth: nat, fetchOk: bool, hashOk: HashOracle, handler: Handler,
                          faults: Faults)
    requires forall e :: faults(e) == NoFault
    ensures PollFaulty(s, h, depth, fetchOk, hashOk, handler, faults) == Poll(s, h, depth, fetchOk, hashOk, handler)
  {
    var s1 := HandleReorg(s, h, depth, hashOk);
    NothingFails(s1.rows, s1.cursor, Fetch(h, s1.cursor + 1, fetchOk).0, faults, handler);
  }

  /** One poll against the chain `h`. */
  function Poll(s: State, h: History, depth: nat, fetchOk: bool, hashOk: HashOracle, handler: Handler): State {
    IndexBatch(HandleReorg(s, h, depth, hashOk), h, fetchOk, hashOk, handler)
  }

  // -------------------------------------------------------------- the service

  /** The poll as the service runs it, step by step over its repositories. */
  class Service {
    var rows: Rows
    var cursor: nat
    var latest: nat
    var sync: Option<Checkpoint>

    constructor ()
      ensures Value() == State(map[], 0, 0, None)
    {
      rows, cursor, latest, sync := map[], 0, 0, None;
    }

    ghost function Value(): State
      reads this
    {
      State(rows, cursor, latest, sync)
    }

    method DetectAndHandleReorg(h: History, depth: nat, hashOk: HashOracle) returns (rolledBack: Option<nat>)
      modifies this
      ensures Value() == HandleReorg(old(Value()), h, depth, hashOk)
      ensures rolledBack.Some? <==> ReorgDetected(old(Value()), h, hashOk)
      ensures rolledBack.Some? ==> rolledBack.value == cursor
      ensures rolledBack.None? ==> Value() == old(Value())
      ensures rolledBack.Some? ==>
                var previous := old(sync).value.ledger;
                && cursor == (if previous > depth then previous - depth else 0) && latest == old(latest)
                && sync == Some(Checkpoint(cursor, if 1 <= cursor <= |h| && hashOk(cursor)
                                                   then Some(HashOf(h[..cursor])) else None))
                && (forall k :: k in rows <==> k in old(rows) && k.0 <= cursor)
                && forall k :: k in rows ==> rows[k] == old(rows)[k]
      ensures rolledBack.Some? <==>
                && old(sync).Some? && 1 <= old(sync).value.ledger <= |h| && old(sync).value.hash.Some?
                && hashOk(old(sync).value.ledger)
                && old(sync).value.hash.value != HashOf(h[..old(sync).value.ledger])
    {
      if sync.None? { return None; }
      var previous := sync.value.ledger;
      if previous == 0 || sync.value.hash == None { return None; }
      var current := FetchHash(h, previous, hashOk(previous));
      if current == None || current == sync.value.hash { return None; }
      var fork := if previous > depth then previous - depth else 0;
      rows := map k | k in rows && k.0 <= fork :: rows[k];
      sync := Some(Checkpoint(fork, FetchHash(h, fork, hashOk(fork))));
      cursor := fork;
      return Some(fork);
    }

    method StoreAndProcessEvent(e: Entry, handler: Handler)
      modifies `rows
      ensures rows == Store(old(rows), e, handler)
      ensures IsProcessed(old(rows), e.Key()) ==> rows == old(rows)
      ensures !IsProcessed(old(rows), e.Key()) ==>
                var known := e.Key() in old(rows);
                var failures := if known then old(rows)[e.Key()].failures else 0;
                var event := if known then Event(old(rows)[e.Key()].event.kind, e.event.data) else e.event;
                rows == old(rows)[e.Key() := if handler(e, failures) then Row(event, Processed, failures)
                                             else if failures < 4 then Row(event, Failed, failures + 1)
                                             else Row(event, Dlq, failures + 1)]
    {
      var row;
      if e.Key() in rows {
        if rows[e.Key()].status == Processed { return; }
        row := rows[e.Key()];
        row := row.(event := Event(row.event.kind, e.event.data));
      } else {
        row := Row(e.event, Pending, 0);
      }
      rows := rows[e.Key() := row];
      if handler(e, row.failures) {
        row := row.(status := Processed);
      } else {
        row := row.(failures := row.failures + 1);
        if row.failures >= DLQ_THRESHOLD {
          row := row.(status := Dlq);
        } else {
          row := row.(status := Failed);
        }
      }
      rows := rows[e.Key() := row];
    }

    method SaveProgress(h: History, ledger: nat, hashOk: HashOracle)
      modifies this
      ensures Value() == MoveTo(old(Value()), h, ledger, hashOk)
      ensures cursor == ledger && rows == old(rows) && latest == old(latest)
      ensures
        var before := if old(sync).Some? then old(sync).value else Checkpoint(0, None);
        && sync.Some? && sync.value.ledger == (if ledger > before.ledger then ledger else before.ledger)
        && sync.value.hash == if 1 <= ledger <= |h| && hashOk(ledger) then Some(HashOf(h[..ledger])) else before.hash
    {
      cursor := ledger;
      var cp := if sync.Some? then sync.value else Checkpoint(0, None);
      if ledger > cp.ledger {
        cp := cp.(ledger := ledger);
      }
      sync := Some(cp);
      if ledger > 0 {
        var hash := FetchHash(h, ledger, hashOk(ledger));
        if hash != None {
          if ledger >= cp.ledger {
            cp := cp.(ledger := ledger);
          }
          sync := Some(cp.(hash := hash));
        }
      }
    }

    /** `storeAndProcessEvent` on a database that may fail; an error goes to the caller. */
    method TryToStore(e: Entry, fault: Fault, handler: Handler) returns (stored: bool)
      modifies `rows
      ensures rows == StoreOne(old(rows), e, fault, handler)
      ensures stored <==> Succeeds(old(rows), e, fault)
    {
      if fault == LookupThrows { return false; }
      if fault.StoreThrows? && !(e.Key() in rows && rows[e.Key()].status == Processed) {
        if fault.saved {
          rows := rows[e.Key() := Received(rows, e)];
        }
        return false;
      }
      StoreAndProcessEvent(e, handler);
      return true;
    }

    /** The loop over a batch; it arrives in chain order, so the sort before it changes nothing. */
    method StoreEvents(events: seq<Entry>, last: nat, faults: Faults, handler: Handler) returns (maxProcessed: nat)
      modifies `rows
      ensures (rows, maxProcessed) == StoreBatch(old(rows), last, events, faults, handler)
    {
      maxProcessed := last;
      var i := 0;
      while i < |events|
        invariant 0 <= i <= |events|
        invariant StoreBatch(old(rows), last, events, faults, handler)
                  == StoreBatch(rows, maxProcessed, events[i..], faults, handler)
      {
        var stored := TryToStore(events[i], faults(events[i]), handler);
        if stored && events[i].ledger > maxProcessed {
          maxProcessed := events[i].ledger;
        }
        assert events[i..][1..] == events[i + 1..];
        i := i + 1;
      }
    }

    /** Everything of a poll after the check for a reorganisation. */
    method IndexNewEvents(h: History, fetchOk: bool, hashOk: HashOracle, handler: Handler, faults: Faults)
      modifies this
      ensures Value() == IndexFaulty(old(Value()), h, fetchOk, hashOk, handler, faults)
      ensures latest == if !fetchOk then old(cursor) + 1 else if |h| > old(cursor) then |h| else old(latest)
    {
      var last := cursor;
      var (events, head) := Fetch(h, last + 1, fetchOk);
      if head > last {
        latest := head;
      }
      if events == [] {
        if head > last {
          SaveProgress(h, head, hashOk);
        }
        return;
      }
      var maxProcessed := StoreEvents(events, last, faults, handler);
      SaveProgress(h, maxProcessed, hashOk);
    }

    method PollContractEvents(h: History, depth: nat, fetchOk: bool, hashOk: HashOracle, handler: Handler,
                              faults: Faults)
      modifies this
      ensures Value() == PollFaulty(old(Value()), h, depth, fetchOk, hashOk, handler, faults)
    {
      var _ := DetectAndHandleReorg(h, depth, hashOk);
      IndexNewEvents(h, fetchOk, hashOk, handler, faults);
    }
  }
}
