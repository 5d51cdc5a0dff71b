/**
 The chain as the indexer sees it: numbered ledgers holding contract events, a hash
 that commits to the whole history, and the two RPC queries, `getEvents` and
 `getLedgers`.
 */
module Chain {
  import opened Text

  const BATCH_SIZE := 100

  datatype Event = Event(kind: string, data: string)

  /** `body` stands for everything besides the contract events that the ledger hash covers. */
  datatype Ledger = Ledger(body: int, events: seq<Event>)

  /** Ledger number n is at position n - 1. */
  type History = seq<Ledger>

  datatype Hash = Genesis | Link(parent: Hash, ledger: Ledger)

  function HashOf(h: History): Hash {
    if h == [] then Genesis else Link(HashOf(h[..|h| - 1]), h[|h| - 1])
  }

  /** The hash of a ledger determines the whole history below it. */
  lemma {:induction false} HashInjective(a: History, b: History)
    requires HashOf(a) == HashOf(b)
    ensures a == b
    decreases |a|
  {
    if a != [] && b != [] {
      HashInjective(a[..|a| - 1], b[..|b| - 1]);
      assert a == a[..|a| - 1] + [a[|a| - 1]] && b == b[..|b| - 1] + [b[|b| - 1]];
    }
  }

  /** `getLedgers` for one ledger; None when it does not exist or the lookup fails. */
  function FetchHash(h: History, n: nat, ok: bool): Option<Hash> {
    if ok && 1 <= n <= |h| then Some(HashOf(h[..n])) else None
  }

  // ------------------------------------------------------------------ events

  type Key = (nat, nat)

  /** A contract event with its place on the chain. */
  datatype Entry = Entry(ledger: nat, index: nat, event: Event) {
    function Key(): (k: (nat, nat)) { (ledger, index) }
  }

  /** `k` is the place of an event in the ledgers 1..c of `h`. */
  predicate Canonical(h: History, c: nat, k: Key) {
    1 <= k.0 <= c && k.0 <= |h| && k.1 < |h[k.0 - 1].events|
  }

  function EventAt(h: History, k: Key): Event
    requires Canonical(h, k.0, k)
  {
    h[k.0 - 1].events[k.1]
  }

  function LedgerEntries(l: Ledger, n: nat): (es: seq<Entry>)
    ensures |es| == |l.events|
    ensures forall i :: 0 <= i < |es| ==> es[i] == Entry(n, i, l.events[i])
  {
    seq(|l.events|, i requires 0 <= i < |l.events| => Entry(n, i, l.events[i]))
  }

  /** The events of the ledgers lo, lo + 1, ... in chain order. */
  function EntriesFrom(h: History, lo: nat): seq<Entry>
    decreases |h| - lo
  {
    if lo > |h| then []
    else if lo == 0 then EntriesFrom(h, 1)
    else LedgerEntries(h[lo - 1], lo) + EntriesFrom(h, lo + 1)
  }

  /** Strictly earlier on the chain. */
  predicate Before(a: Entry, b: Entry) {
    a.ledger < b.ledger || (a.ledger == b.ledger && a.index < b.index)
  }

  predicate Ordered(es: seq<Entry>) {
    forall i, j :: 0 <= i < j < |es| ==> Before(es[i], es[j])
  }

  /** `e` is an event of `h` at ledger `lo` or above. */
  predicate IsEntry(h: History, lo: nat, e: Entry) {
    lo <= e.ledger && Canonical(h, e.ledger, e.Key()) && e.event == EventAt(h, e.Key())
  }

  lemma {:induction false} EntriesAreEvents(h: History, lo: nat, e: Entry)
    ensures e in EntriesFrom(h, lo) <==> IsEntry(h, lo, e)
    decreases |h| - lo
  {
    if 0 < lo <= |h| {
      EntriesAreEvents(h, lo + 1, e);
      HereIff(h, lo, e);
      assert EntriesFrom(h, lo) == LedgerEntries(h[lo - 1], lo) + EntriesFrom(h, lo + 1);
    } else if lo == 0 <= |h| {
      if |h| > 0 {
        EntriesAreEvents(h, 1, e);
      }
    }
  }

  lemma HereIff(h: History, n: nat, e: Entry)
    requires 1 <= n <= |h|
    ensures e in LedgerEntries(h[n - 1], n) <==> e.ledger == n && IsEntry(h, n, e)
  {
    var here := LedgerEntries(h[n - 1], n);
    if e in here {
      var i :| 0 <= i < |here| && here[i] == e;
    }
    if e.ledger == n && IsEntry(h, n, e) {
      assert here[e.index] == e;
    }
  }

  lemma {:induction false} EntriesOrdered(h: History, lo: nat)
    ensures Ordered(EntriesFrom(h, lo))
    decreases |h| - lo
  {
    if lo <= |h| {
      EntriesOrdered(h, lo + 1);
      if lo > 0 {
        var rest := EntriesFrom(h, lo + 1);
        forall j | 0 <= j < |rest| ensures rest[j].ledger > lo {
          EntriesAreEvents(h, lo + 1, rest[j]);
        }
      }
    }
  }

  /** What the batch limit leaves of a sequence of events. */
  function Limited(all: seq<Entry>): seq<Entry> {
    if |all| <= BATCH_SIZE then all else all[..BATCH_SIZE]
  }

  /** The batch limit does not cut a ledger in two. */
  predicate CutsBetween(all: seq<Entry>) {
    |all| <= BATCH_SIZE || all[BATCH_SIZE - 1].ledger != all[BATCH_SIZE].ledger
  }

  /**
   `getEvents` from ledger `lo` with the batch limit, and the chain head. A failed
   query is reported as an empty batch whose head is `lo` itself.
   */
  function Fetch(h: History, lo: nat, ok: bool): (r: (seq<Entry>, nat)) {
    if ok then (Limited(EntriesFrom(h, lo)), |h|) else ([], lo)
  }

  predicate CutWhole(h: History, lo: nat) {
    CutsBetween(EntriesFrom(h, lo))
  }

  /** No batch of `h` cuts a ledger in two, wherever it starts. */
  predicate WholeLedgers(h: History) {
    forall lo :: 1 <= lo <= |h| ==> CutWhole(h, lo)
  }
}
