/**
 Stored contract events: one row for each place on the chain, its processing status
 and the number of recorded failures.
 */
module EventRows {
  import opened Chain

  const DLQ_THRESHOLD := 5
  const MAX_RETRIES := 5

  datatype Status = Pending | Processed | Failed | Dlq

  datatype Row = Row(event: Event, status: Status, failures: nat)

  type Rows = map<Key, Row>

  /** The row that is saved before the handler runs; an existing row keeps its type. */
  function Received(rows: Rows, e: Entry): Row {
    if e.Key() in rows
    then rows[e.Key()].(event := Event(rows[e.Key()].event.kind, e.event.data))
    else Row(e.event, Pending, 0)
  }

  /** The row after the handler ran. */
  function Settle(row: Row, ok: bool): Row {
    if ok then row.(status := Processed)
    else row.(failures := row.failures + 1,
              status := if row.failures + 1 >= DLQ_THRESHOLD then Dlq else Failed)
  }

  predicate IsProcessed(rows: Rows, k: Key) {
    k in rows && rows[k].status == Processed
  }

  /** Whether the handler succeeds on an event with that many failures recorded so far. */
  type Handler = (Entry, nat) -> bool

  /** Store an event and run its handler, unless it was processed before. */
  function Store(rows: Rows, e: Entry, handler: Handler): Rows {
    if IsProcessed(rows, e.Key()) then rows
    else rows[e.Key() := Settle(Received(rows, e), handler(e, Received(rows, e).failures))]
  }

  /** What the database does while one event is stored; `saved` when the received row was written before it failed. */
  datatype Fault = NoFault | LookupThrows | StoreThrows(saved: bool)

  /** Store one event on a database that may fail. */
  function StoreOne(rows: Rows, e: Entry, fault: Fault, handler: Handler): Rows {
    if fault == LookupThrows || IsProcessed(rows, e.Key()) then rows
    else if fault == NoFault then Store(rows, e, handler)
    else if fault.saved then rows[e.Key() := Received(rows, e)] else rows
  }

  /** Storing the event ends without an error. */
  predicate Succeeds(rows: Rows, e: Entry, fault: Fault) {
    fault == NoFault || (fault.StoreThrows? && IsProcessed(rows, e.Key()))
  }

  function StoreAll(rows: Rows, es: seq<Entry>, handler: Handler): Rows
    decreases |es|
  {
    if es == [] then rows else StoreAll(Store(rows, es[0], handler), es[1..], handler)
  }

  /** `k` is the place of one of `es`. */
  predicate Delivered(es: seq<Entry>, k: Key) {
    exists i :: 0 <= i < |es| && es[i].Key() == k
  }

  /** Storing adds exactly the delivered places and touches no other row. */
  lemma {:induction false} StoreAllKeys(rows: Rows, es: seq<Entry>, handler: Handler, k: Key)
    ensures k in StoreAll(rows, es, handler) <==> k in rows || Delivered(es, k)
    ensures k in rows && !Delivered(es, k) ==> StoreAll(rows, es, handler)[k] == rows[k]
    decreases |es|
  {
    if es != [] {
      StoreAllKeys(Store(rows, es[0], handler), es[1..], handler, k);
      if Delivered(es[1..], k) {
        var i :| 0 <= i < |es[1..]| && es[1..][i].Key() == k;
        assert es[i + 1].Key() == k;
      }
      if Delivered(es, k) && es[0].Key() != k {
        var i :| 0 <= i < |es| && es[i].Key() == k;
        assert es[1..][i - 1].Key() == k;
      }
    }
  }

  /** A new place receives the event delivered for it, when the batch is in chain order. */
  lemma {:induction false} StoreAllEvents(rows: Rows, es: seq<Entry>, handler: Handler, i: nat)
    requires Ordered(es) && i < |es| && es[i].Key() !in rows
    ensures es[i].Key() in StoreAll(rows, es, handler)
    ensures StoreAll(rows, es, handler)[es[i].Key()].event == es[i].event
    decreases |es|
  {
    var first := Store(rows, es[0], handler);
    var rest := es[1..];
    if i == 0 {
      StoreAllKeys(first, rest, handler, es[0].Key());
      assert !Delivered(rest, es[0].Key()) by {
        forall j | 0 <= j < |rest| ensures rest[j].Key() != es[0].Key() {
          assert Before(es[0], es[j + 1]);
        }
      }
    } else {
      assert Before(es[0], es[i]);
      assert rest[i - 1] == es[i];
      StoreAllEvents(first, rest, handler, i - 1);
    }
  }
}
