/**
 The life of an event row under every mix of poll, backfill, bulk retry, gap repair,
 rollback and clean-up.
 */
module EventLifecycle {
  import opened Chain
  import opened EventRows

  datatype Step =
    /** An event is delivered by a poll or a backfill; `ok` is what its handler does. */
    | Deliver(e: Entry, ok: bool)
    /** Its storing is interrupted, before or after the row is first saved. */
    | Interrupted(e: Entry, saved: bool)
    /** The bulk retry of failed rows; `good` are the rows whose handler succeeds. */
    | BulkRetry(good: set<Key>)
    /** Reconciliation inserts a row for a missing event without running its handler. */
    | RepairGap(e: Entry)
    | Rollback(fork: nat)
    /** Old processed rows are removed. */
    | Cleanup(expired: set<Key>)

  /** The rows whose handler the bulk retry runs. */
  predicate Retried(row: Row) {
    (row.status == Failed || row.status == Dlq) && row.failures < MAX_RETRIES
  }

  function Next(rows: Rows, step: Step): Rows {
    match step
    case Deliver(e, ok) => Store(rows, e, (_, _) => ok)
    case Interrupted(e, saved) =>
      if saved && !IsProcessed(rows, e.Key()) then rows[e.Key() := Received(rows, e)] else rows
    case BulkRetry(ok) =>
      map k | k in rows :: if Retried(rows[k]) && k in ok then rows[k].(status := Processed) else rows[k]
    case RepairGap(e) => if e.Key() in rows then rows else rows[e.Key() := Row(e.event, Pending, 0)]
    case Rollback(fork) => map k | k in rows && k.0 <= fork :: rows[k]
    case Cleanup(expired) => map k | k in rows && !(k in expired && rows[k].status == Processed) :: rows[k]
  }

  /** Whether the step runs the handler of the event at `k`. */
  predicate Runs(rows: Rows, step: Step, k: Key) {
    match step
    case Deliver(e, _) => e.Key() == k && !IsProcessed(rows, k)
    case BulkRetry(_) => k in rows && Retried(rows[k])
    case _ => false
  }

  function Run(rows: Rows, steps: seq<Step>): Rows
    decreases |steps|
  {
    if steps == [] then rows else Run(Next(rows, steps[0]), steps[1..])
  }

  /** The failure count fits the status. */
  predicate RowInv(row: Row) {
    match row.status
    case Pending => row.failures == 0
    case Processed => true
    case Failed => 1 <= row.failures < DLQ_THRESHOLD
    case Dlq => row.failures >= DLQ_THRESHOLD
  }

  predicate Inv(rows: Rows) {
    forall k :: k in rows ==> RowInv(rows[k])
  }

  lemma NextKeepsInv(rows: Rows, step: Step)
    requires Inv(rows)
    ensures Inv(Next(rows, step))
  {
    var rows' := Next(rows, step);
    forall k | k in rows' ensures RowInv(rows'[k]) {
      if k in rows {
        assert RowInv(rows[k]);
      }
    }
  }

  /**
   In every reachable set of rows a FAILED row has one to four recorded failures, a
   dead-lettered row at least five, and the bulk retry therefore runs the handler of
   exactly the FAILED rows and of no dead-lettered one.
   */
  lemma {:induction false} FailureCounts(steps: seq<Step>, rows: Rows, k: Key)
    requires Inv(rows) && k in Run(rows, steps)
    ensures Inv(Run(rows, steps))
    ensures forall ok :: Runs(Run(rows, steps), BulkRetry(ok), k) <==> Run(rows, steps)[k].status == Failed
    decreases |steps|
  {
    if steps != [] {
      NextKeepsInv(rows, steps[0]);
      FailureCounts(steps[1..], Next(rows, steps[0]), k);
    } else {
      assert RowInv(rows[k]);
    }
  }

  /** The row at `k` is there in every state that `steps` passes through. */
  predicate Survives(rows: Rows, steps: seq<Step>, k: Key)
    decreases |steps|
  {
    k in rows && (steps == [] || Survives(Next(rows, steps[0]), steps[1..], k))
  }

  /** How often `steps` run the handler of the event at `k`. */
  function RunCount(rows: Rows, steps: seq<Step>, k: Key): nat
    decreases |steps|
  {
    if steps == [] then 0
    else RunCount(Next(rows, steps[0]), steps[1..], k) + if Runs(rows, steps[0], k) then 1 else 0
  }

  /** While its row exists, a processed event stays processed and its handler never runs again. */
  lemma {:induction false} ProcessedOnce(rows: Rows, steps: seq<Step>, k: Key)
    requires Survives(rows, steps, k) && rows[k].status == Processed
    ensures RunCount(rows, steps, k) == 0
    ensures IsProcessed(Run(rows, steps), k) && Run(rows, steps)[k] == rows[k]
    decreases |steps|
  {
    if steps != [] {
      assert Next(rows, steps[0])[k] == rows[k];
      ProcessedOnce(Next(rows, steps[0]), steps[1..], k);
    }
  }

  // ------------------------------------------------------- deliveries and their effect

  /**
   What a delivery of an event that was not processed makes of its row: processed with its
   failures as they were if and only if the handler succeeded; otherwise there is one
   failure more and the event has failed, or is dead-lettered from the fifth on.
   */
  lemma DeliverySettles(rows: Rows, e: Entry, ok: bool)
    requires !IsProcessed(rows, e.Key())
    ensures
      var rows' := Next(rows, Deliver(e, ok));
      var failures := if e.Key() in rows then rows[e.Key()].failures else 0;
      && e.Key() in rows' && (rows'[e.Key()].status == Processed <==> ok)
      && rows'[e.Key()].failures == failures + (if ok then 0 else 1)
      && (!ok ==> rows'[e.Key()].status == if failures + 1 >= 5 then Dlq else Failed)
      && rows'[e.Key()].event.data == e.event.data
      && (e.Key() !in rows ==> rows'[e.Key()].event == e.event)
      && forall k :: k != e.Key() ==> (k in rows' <==> k in rows) && (k in rows ==> rows'[k] == rows[k])
  {
  }

  /** A delivery whose handler succeeds is the last run of that handler while the row exists. */
  lemma HandledOnce(rows: Rows, e: Entry, steps: seq<Step>)
    requires Survives(Next(rows, Deliver(e, true)), steps, e.Key())
    ensures RunCount(Next(rows, Deliver(e, true)), steps, e.Key()) == 0
    ensures IsProcessed(Run(Next(rows, Deliver(e, true)), steps), e.Key())
  {
    if !IsProcessed(rows, e.Key()) {
      DeliverySettles(rows, e, true);
    }
    ProcessedOnce(Next(rows, Deliver(e, true)), steps, e.Key());
  }

  /**
   An interrupted delivery is not a delivery: the event is still not processed, has as many
   failures as before, and the next delivery runs its handler.
   */
  lemma InterruptedIsDeliveredAgain(rows: Rows, e: Entry, saved: bool, ok: bool)
    requires !IsProcessed(rows, e.Key())
    ensures
      var rows' := Next(rows, Interrupted(e, saved));
      && (e.Key() in rows' <==> e.Key() in rows || saved)
      && (e.Key() in rows ==> rows'[e.Key()].(event := rows[e.Key()].event) == rows[e.Key()])
      && (e.Key() !in rows && saved ==> rows'[e.Key()] == Row(e.event, Pending, 0))
      && Runs(rows', Deliver(e, ok), e.Key())
      && (Next(rows', Deliver(e, ok))[e.Key()].status == Processed <==> ok)
      && forall k :: k != e.Key() ==> (k in rows' <==> k in rows) && (k in rows ==> rows'[k] == rows[k])
  {
    DeliverySettles(Next(rows, Interrupted(e, saved)), e, ok);
  }

  function Deliveries(e: Entry, n: nat): seq<Step> {
    if n == 0 then [] else [Deliver(e, false)] + Deliveries(e, n - 1)
  }

  lemma DeliveriesCons(rows: Rows, e: Entry, n: nat)
    requires n > 0
    ensures Run(rows, Deliveries(e, n)) == Run(Next(rows, Deliver(e, false)), Deliveries(e, n - 1))
  {
    assert Deliveries(e, n)[1..] == Deliveries(e, n - 1);
  }

  /** Failing deliveries add up: `n` of them leave `n` failures more, and the fifth failure is the dead letter. */
  lemma {:induction false} FailuresAddUp(rows: Rows, e: Entry, n: nat)
    requires n > 0 && !IsProcessed(rows, e.Key())
    ensures
      var failures := if e.Key() in rows then rows[e.Key()].failures else 0;
      var rows' := Run(rows, Deliveries(e, n));
      && e.Key() in rows' && rows'[e.Key()].failures == failures + n
      && rows'[e.Key()].status == if failures + n >= 5 then Dlq else Failed
    decreases n
  {
    DeliverySettles(rows, e, false);
    DeliveriesCons(rows, e, n);
    if n > 1 {
      FailuresAddUp(Next(rows, Deliver(e, false)), e, n - 1);
    } else {
      assert Deliveries(e, 0) == [];
    }
  }

  /** What is removed: rows above the fork of a rollback, and expired processed rows in a clean-up. */
  lemma RemovedIff(rows: Rows, step: Step, k: Key)
    requires k in rows
    ensures
      k !in Next(rows, step) <==>
      (step.Rollback? && k.0 > step.fork) || (step.Cleanup? && k in step.expired && rows[k].status == Processed)
  {
  }

  /** A repaired gap waits for its delivery, which runs its handler. */
  lemma RepairedGapIsDelivered(rows: Rows, e: Entry, ok: bool)
    requires e.Key() !in rows
    ensures
      var rows' := Next(rows, RepairGap(e));
      && rows' == rows[e.Key() := Row(e.event, Pending, 0)] && Runs(rows', Deliver(e, ok), e.Key())
      && (forall good :: !Runs(rows', BulkRetry(good), e.Key()))
      && (Next(rows', Deliver(e, ok))[e.Key()].status == Processed <==> ok)
  {
    DeliverySettles(Next(rows, RepairGap(e)), e, ok);
  }

  // ----------------------------------------------------------------- bulk retry

  /** `retryFailedEvents` over the rows it selected; returns how many it selected. */
  method RetryFailedEvents(rows: Rows, ok: set<Key>) returns (rows': Rows, selected: nat)
    ensures rows' == Next(rows, BulkRetry(ok))
    ensures rows'.Keys == rows.Keys
    ensures forall k :: k in rows ==>
              rows'[k] == if rows[k].status in {Failed, Dlq} && rows[k].failures < 5 && k in ok
                          then Row(rows[k].event, Processed, rows[k].failures) else rows[k]
    ensures selected == |set k | k in rows && (rows[k].status == Failed || rows[k].status == Dlq)|
  {
    var failed := set k | k in rows && (rows[k].status == Failed || rows[k].status == Dlq);
    selected := |failed|;
    rows' := rows;
    var todo := failed;
    while todo != {}
      invariant todo <= failed
      invariant rows'.Keys == rows.Keys
      invariant forall k :: k in rows ==>
        rows'[k] == if k in failed - todo then Next(rows, BulkRetry(ok))[k] else rows[k]
      decreases todo
    {
      var k :| k in todo;
      todo := todo - {k};
      var event := rows'[k];
      if event.failures < MAX_RETRIES && k in ok {
        event := event.(status := Processed);
        rows' := rows'[k := event];
      }
    }
    ghost var next := Next(rows, BulkRetry(ok));
    forall k | k in rows ensures rows'[k] == next[k] {
      assert k in failed || next[k] == rows[k];
    }
    assert rows' == next;
  }
}
