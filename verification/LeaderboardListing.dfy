/**
 Following the cursor over a table that does not change: when the listing ends, and when
 it is exactly the table.
 */
module LeaderboardListing {
  import opened Text
  import opened Leaderboard

  // ------------------------------------------------------------- what a query answers

  /** The rows behind a cursor. */
  ghost function Behind(table: set<Row>, after: Option<Row>): set<Row> {
    set r | r in table && Eligible(table, after, r)
  }

  predicate IsFirst(first: Row, rows: set<Row>) {
    first in rows && forall r :: r in rows && r != first ==> Ahead(first, r)
  }

  lemma WithFirst(rows: set<Row>, first: Row, added: Row) returns (f: Row)
    requires IsFirst(first, rows)
    ensures IsFirst(f, rows + {added})
  {
    AheadTotal(added, first);
    if Ahead(added, first) {
      f := added;
      forall r | r in rows && r != first ensures Ahead(added, r) {
        AheadTransitive(added, first, r);
      }
    } else {
      f := first;
    }
  }

  lemma {:induction false} FirstOf(rows: set<Row>) returns (first: Row)
    requires rows != {}
    ensures IsFirst(first, rows)
    decreases |rows|
  {
    var some :| some in rows;
    if rows == {some} {
      first := some;
    } else {
      var first' := FirstOf(rows - {some});
      first := WithFirst(rows - {some}, first', some);
      assert rows - {some} + {some} == rows;
    }
  }

  /** `found` are the first `take` of the rows, in order. */
  predicate Picks(found: seq<Row>, rows: set<Row>, take: nat) {
    && Ordered(found) && |found| <= take
    && (forall i :: 0 <= i < |found| ==> found[i] in rows)
    && (forall r :: r in rows && r !in found ==> |found| == take && forall i :: 0 <= i < |found| ==> Ahead(found[i], r))
  }

  lemma {:induction false} FirstRows(rows: set<Row>, take: nat) returns (found: seq<Row>)
    ensures Picks(found, rows, take)
    decreases take
  {
    found := [];
    if take > 0 && rows != {} {
      var first := FirstOf(rows);
      var rest := FirstRows(rows - {first}, take - 1);
      found := [first] + rest;
    }
  }

  lemma PickedFirst(found: seq<Row>, rows: set<Row>, take: nat, r: Row)
    requires Picks(found, rows, take) && r in rows && take > 0
    ensures found != [] && (found[0] == r || Ahead(found[0], r))
  {
    if r in found {
      var i :| 0 <= i < |found| && found[i] == r;
    }
  }

  lemma PickedRest(found: seq<Row>, rows: set<Row>, take: nat)
    requires Picks(found, rows, take) && found != []
    ensures Picks(found[1..], rows - {found[0]}, take - 1)
  {
    var rest := found[1..];
    forall i | 0 <= i < |rest| ensures rest[i] in rows - {found[0]} {
      assert Ahead(found[0], found[i + 1]);
      AheadIrreflexive(found[0]);
    }
    forall r | r in rows - {found[0]} && r !in rest
      ensures |rest| == take - 1 && forall i :: 0 <= i < |rest| ==> Ahead(rest[i], r)
    {
      assert r !in found by {
        assert found == [found[0]] + rest;
      }
    }
  }

  lemma EmptyPickIff(found: seq<Row>, rows: set<Row>, take: nat)
    requires Picks(found, rows, take)
    ensures found == [] <==> take == 0 || rows == {}
  {
    if take > 0 && rows != {} {
      var r :| r in rows;
      PickedFirst(found, rows, take, r);
    }
    assert found != [] ==> found[0] in rows;
  }

  /** The answer to a query is determined by the rows behind the cursor. */
  lemma {:induction false} PicksUnique(a: seq<Row>, b: seq<Row>, rows: set<Row>, take: nat)
    requires Picks(a, rows, take) && Picks(b, rows, take)
    ensures a == b
    decreases |a|
  {
    EmptyPickIff(a, rows, take);
    EmptyPickIff(b, rows, take);
    if a != [] {
      PickedFirst(a, rows, take, b[0]);
      PickedFirst(b, rows, take, a[0]);
      if a[0] != b[0] {
        AheadTransitive(a[0], b[0], a[0]);
        AheadIrreflexive(a[0]);
      }
      PickedRest(a, rows, take);
      PickedRest(b, rows, take);
      PicksUnique(a[1..], b[1..], rows - {a[0]}, take - 1);
      assert a == [a[0]] + a[1..] && b == [b[0]] + b[1..];
    }
  }

  lemma AnswersArePicks(rows: seq<Row>, table: set<Row>, after: Option<Row>, take: nat)
    ensures Answers(rows, table, after, take) <==> Picks(rows, Behind(table, after), take)
  {
  }

  ghost function PageRows(table: set<Row>, after: Option<Row>, take: nat): (rows: seq<Row>)
    ensures Answers(rows, table, after, take)
  {
    SomeAnswer(table, after, take);
    var rows :| Answers(rows, table, after, take);
    rows
  }

  lemma SomeAnswer(table: set<Row>, after: Option<Row>, take: nat)
    ensures exists rows :: Answers(rows, table, after, take)
  {
    var rows := FirstRows(Behind(table, after), take);
    AnswersArePicks(rows, table, after, take);
  }

  lemma AnswersUnique(rows: seq<Row>, table: set<Row>, after: Option<Row>, take: nat)
    requires Answers(rows, table, after, take)
    ensures rows == PageRows(table, after, take)
  {
    AnswersArePicks(rows, table, after, take);
    AnswersArePicks(PageRows(table, after, take), table, after, take);
    PicksUnique(rows, PageRows(table, after, take), Behind(table, after), take);
  }

  // ------------------------------------------------------------------- termination

  /** Where the page after the one behind `after` starts. */
  ghost function Following(table: set<Row>, after: Option<Row>, limit: nat): Option<Row>
    requires limit >= 1
  {
    SeekOf(PageRows(table, after, limit + 1), limit)
  }

  ghost predicate IsLast(table: set<Row>, after: Option<Row>, limit: nat) {
    |PageRows(table, after, limit + 1)| <= limit
  }

  /** Following the cursor reaches the last page within `n` pages. */
  ghost predicate Ends(table: set<Row>, after: Option<Row>, limit: nat, n: nat)
    requires limit >= 1
    decreases n
  {
    n > 0 && (IsLast(table, after, limit)
              || (Following(table, after, limit).Some? && Ends(table, Following(table, after, limit), limit, n - 1)))
  }

  /** All reads are of this one table. */
  predicate AllOf(visits: seq<Read>, table: set<Row>) {
    forall i :: 0 <= i < |visits| ==> visits[i].table == table
  }

  lemma LastPage(read: Read, after: Option<Row>, limit: nat)
    requires limit >= 1 && Answers(read.rows, read.table, after, limit + 1) && |read.rows| <= limit
    ensures Traversal([read], after, limit)
  {
  }

  lemma MorePages(read: Read, after: Option<Row>, limit: nat, rest: seq<Read>)
    requires limit >= 1 && Answers(read.rows, read.table, after, limit + 1) && |read.rows| > limit
    requires SeekOf(read.rows, limit).Some? && Traversal(rest, SeekOf(read.rows, limit), limit)
    ensures Traversal([read] + rest, after, limit)
  {
    assert ([read] + rest)[1..] == rest;
  }

  lemma {:induction false} EndsTraverses(table: set<Row>, after: Option<Row>, limit: nat, n: nat)
    returns (visits: seq<Read>)
    requires limit >= 1 && Ends(table, after, limit, n)
    ensures Traversal(visits, after, limit) && AllOf(visits, table)
    decreases n
  {
    var read := Read(table, PageRows(table, after, limit + 1));
    if IsLast(table, after, limit) {
      LastPage(read, after, limit);
      visits := [read];
    } else {
      var rest := EndsTraverses(table, Following(table, after, limit), limit, n - 1);
      MorePages(read, after, limit, rest);
      visits := [read] + rest;
    }
  }

  lemma {:induction false} TraversalEnds(visits: seq<Read>, table: set<Row>, after: Option<Row>, limit: nat)
    requires limit >= 1 && Traversal(visits, after, limit) && AllOf(visits, table)
    ensures Ends(table, after, limit, |visits|)
    decreases |visits|
  {
    if !IsLast(table, after, limit) {
      TraversalRest(visits, table, after, limit);
      TraversalEnds(visits[1..], table, Following(table, after, limit), limit);
    }
  }

  lemma TraversalRest(visits: seq<Read>, table: set<Row>, after: Option<Row>, limit: nat)
    requires limit >= 1 && Traversal(visits, after, limit) && AllOf(visits, table) && !IsLast(table, after, limit)
    ensures Following(table, after, limit).Some? && |visits| > 1
    ensures Traversal(visits[1..], Following(table, after, limit), limit) && AllOf(visits[1..], table)
  {
    AnswersUnique(visits[0].rows, table, after, limit + 1);
  }

  lemma {:induction false} EndsLater(table: set<Row>, after: Option<Row>, limit: nat, n: nat, k: nat)
    requires limit >= 1 && Ends(table, after, limit, n) && n <= k
    ensures Ends(table, after, limit, k)
    decreases n
  {
    if !IsLast(table, after, limit) {
      EndsLater(table, Following(table, after, limit), limit, n - 1, k - 1);
    }
  }

  /** The places where a later page can start. */
  ghost function Seeks(table: set<Row>): set<Row> {
    set r | r in table :: Truncated(r)
  }

  lemma {:induction false} FewSeeks(table: set<Row>)
    ensures |Seeks(table)| <= |table|
    decreases |table|
  {
    if table != {} {
      var r :| r in table;
      FewSeeks(table - {r});
      assert Seeks(table) == Seeks(table - {r}) + {Truncated(r)} by {
        assert table == table - {r} + {r};
      }
    }
  }

  lemma {:induction false} SubsetSize(a: set<Row>, b: set<Row>)
    requires a <= b
    ensures |a| <= |b|
    decreases |a|
  {
    if a != {} {
      var r :| r in a;
      SubsetSize(a - {r}, b - {r});
    }
  }

  /** The starts from which the last page is at most `n` pages away. */
  ghost function Near(table: set<Row>, limit: nat, n: nat): set<Row>
    requires limit >= 1
  {
    set x | x in Seeks(table) && Ends(table, Some(x), limit, n)
  }

  lemma FollowingIsSeek(table: set<Row>, after: Option<Row>, limit: nat)
    requires limit >= 1 && Following(table, after, limit).Some?
    ensures Following(table, after, limit).value in Seeks(table)
  {
    var rows := PageRows(table, after, limit + 1);
    assert Eligible(table, after, rows[limit - 1]);
  }

  /** A listing of exactly `n` pages passes starts at every distance below `n`. */
  lemma {:induction false} LayersGrow(table: set<Row>, after: Option<Row>, limit: nat, n: nat)
    requires limit >= 1 && n >= 1 && Ends(table, after, limit, n) && !Ends(table, after, limit, n - 1)
    ensures |Near(table, limit, n - 1)| >= n - 1
    decreases n
  {
    if n > 1 {
      var next := Following(table, after, limit);
      assert !IsLast(table, after, limit);
      FollowingIsSeek(table, after, limit);
      LayersGrow(table, next, limit, n - 1);
      var inner, outer := Near(table, limit, n - 2), Near(table, limit, n - 1);
      forall x | x in inner ensures x in outer - {next.value} {
        EndsLater(table, Some(x), limit, n - 2, n - 1);
      }
      assert next.value in outer;
      SubsetSize(inner, outer - {next.value});
    }
  }

  lemma {:induction false} LeastEnd(table: set<Row>, after: Option<Row>, limit: nat, n: nat) returns (k: nat)
    requires limit >= 1 && Ends(table, after, limit, n)
    ensures 1 <= k <= n && Ends(table, after, limit, k) && !Ends(table, after, limit, k - 1)
    decreases n
  {
    if Ends(table, after, limit, n - 1) {
      k := LeastEnd(table, after, limit, n - 1);
    } else {
      k := n;
    }
  }

  /** A listing that ends needs at most one page more than there are rows. */
  lemma EndsSoon(table: set<Row>, after: Option<Row>, limit: nat, n: nat)
    requires limit >= 1 && Ends(table, after, limit, n)
    ensures Ends(table, after, limit, |table| + 1)
  {
    var k := LeastEnd(table, after, limit, n);
    LayersGrow(table, after, limit, k);
    SubsetSize(Near(table, limit, k - 1), Seeks(table));
    FewSeeks(table);
    EndsLater(table, after, limit, k, |table| + 1);
  }

  ghost predicate HasTraversal(table: set<Row>, limit: nat)
    requires limit >= 1
  {
    exists visits :: Traversal(visits, None, limit) && AllOf(visits, table)
  }

  /** A listing that ends does so within one page more than there are rows. */
  lemma EndsWithinTable(table: set<Row>, limit: nat)
    requires limit >= 1
    ensures HasTraversal(table, limit) <==> Ends(table, None, limit, |table| + 1)
  {
    if HasTraversal(table, limit) {
      var visits :| Traversal(visits, None, limit) && AllOf(visits, table);
      TraversalEnds(visits, table, None, limit);
      EndsSoon(table, None, limit, |visits|);
    }
    if Ends(table, None, limit, |table| + 1) {
      var visits := EndsTraverses(table, None, limit, |table| + 1);
      assert Traversal(visits, None, limit) && AllOf(visits, table);
    }
  }

  // --------------------------------------------------------- pages that lead to themselves

  /** Rows behind the start of the first page are all rows. */
  lemma FirstIsAheadOfAll(table: set<Row>, limit: nat, r: Row)
    requires r in table
    ensures
      var rows := PageRows(table, None, limit + 1);
      rows != [] && (rows[0] == r || Ahead(rows[0], r))
  {
    AnswersArePicks(PageRows(table, None, limit + 1), table, None, limit + 1);
    PickedFirst(PageRows(table, None, limit + 1), Behind(table, None), limit + 1, r);
  }

  /**
   The exact condition for a first page that leads back to itself, for any limit: the
   truncated time of its last row puts the cursor ahead of its first row.
   */
  lemma FirstPageRepeatsIff(table: set<Row>, limit: nat)
    requires limit >= 1 && Following(table, None, limit).Some?
    ensures
      var rows := PageRows(table, None, limit + 1);
      PageRows(table, Following(table, None, limit), limit + 1) == rows <==> Ahead(Truncated(rows[limit - 1]), rows[0])
  {
    var rows := PageRows(table, None, limit + 1);
    var seek := Following(table, None, limit);
    if Ahead(seek.value, rows[0]) {
      forall r | r in table ensures Ahead(seek.value, r) {
        FirstIsAheadOfAll(table, limit, r);
        if rows[0] != r {
          AheadTransitive(seek.value, rows[0], r);
        }
      }
      assert Behind(table, seek) == Behind(table, None);
      AnswersArePicks(rows, table, None, limit + 1);
      AnswersArePicks(rows, table, seek, limit + 1);
      AnswersUnique(rows, table, seek, limit + 1);
    }
    FirstIsEligible(table, seek, limit + 1);
  }

  lemma FirstIsEligible(table: set<Row>, after: Option<Row>, take: nat)
    ensures
      var rows := PageRows(table, after, take);
      rows != [] ==> Eligible(table, after, rows[0])
  {
  }

  lemma {:induction false} CircleNeverEnds(table: set<Row>, after: Option<Row>, limit: nat, n: nat)
    requires limit >= 1 && Following(table, after, limit).Some?
    requires PageRows(table, Following(table, after, limit), limit + 1) == PageRows(table, after, limit + 1)
    ensures !Ends(table, after, limit, n)
    decreases n
  {
    if n > 0 {
      assert Following(table, Following(table, after, limit), limit) == Following(table, after, limit);
      CircleNeverEnds(table, Following(table, after, limit), limit, n - 1);
    }
  }

  /** Such a table is never listed to the end. */
  lemma RepeatingPageNeverEnds(table: set<Row>, limit: nat)
    requires limit >= 1 && Following(table, None, limit).Some?
    requires
      var rows := PageRows(table, None, limit + 1);
      Ahead(Truncated(rows[limit - 1]), rows[0])
    ensures !HasTraversal(table, limit)
  {
    FirstPageRepeatsIff(table, limit);
    CircleNeverEnds(table, None, limit, |table| + 1);
    EndsWithinTable(table, limit);
  }

  /** For example rows inserted in one transaction: equal score, rank and time, within a millisecond. */
  lemma OneTransactionNeverEnds(table: set<Row>, limit: nat, score: int, rank: int, created: int)
    requires 1 <= limit < |table| && created % 1000 != 0
    requires forall r :: r in table ==>
               GoodId(r.user) && r.score == score && r.rank == rank && r.createdMicros == created
    ensures !HasTraversal(table, limit)
  {
    var rows := PageRows(table, None, limit + 1);
    AnswersArePicks(rows, table, None, limit + 1);
    if |rows| <= limit {
      forall r | r in table ensures r in rows {
        assert r in Behind(table, None);
      }
      ShortPage(rows, table);
    }
    assert Eligible(table, None, rows[limit - 1]) && Eligible(table, None, rows[0]);
    RepeatingPageNeverEnds(table, limit);
  }

  lemma {:induction false} ShortPage(rows: seq<Row>, table: set<Row>)
    requires forall r :: r in table ==> r in rows
    ensures |table| <= |rows|
    decreases |rows|
  {
    if rows == [] {
      assert table == {};
    } else {
      var last := rows[|rows| - 1];
      ShortPage(rows[..|rows| - 1], table - {last});
    }
  }

  // ------------------------------------------------------------------------ crowds

  /** Same score, rank and millisecond. */
  predicate SameMoment(a: Row, b: Row) {
    a.score == b.score && a.rank == b.rank && a.createdMicros / 1000 == b.createdMicros / 1000
  }

  /** A page full of rows of one moment, and a row `z` behind them. */
  ghost predicate Crowd(table: set<Row>, s: set<Row>, z: Row, limit: nat) {
    && s <= table && |s| == limit && z in table
    && (forall r :: r in s ==> Ahead(r, z))
    && (forall a, b :: a in s && b in s ==> SameMoment(a, b))
  }

  /** None of the rows was created on a whole millisecond. */
  predicate SubMillis(s: set<Row>) {
    forall r :: r in s ==> !IsWhole(r)
  }

  predicate AllWhole(s: set<Row>) {
    forall r :: r in s ==> IsWhole(r)
  }

  /** Some crowd of the table has no row created on a whole millisecond. */
  ghost predicate Crowded(table: set<Row>, limit: nat) {
    exists s, z :: Crowd(table, s, z, limit) && SubMillis(s)
  }

  /** Some crowd of the table has rows of both kinds. */
  ghost predicate MixedCrowd(table: set<Row>, limit: nat) {
    exists s, z :: Crowd(table, s, z, limit) && !SubMillis(s) && !AllWhole(s)
  }

  // A listing never gets past a crowd without whole milliseconds.

  /** A listing that starts here has all of `s` before it. */
  predicate StartsAhead(after: Option<Row>, s: set<Row>) {
    after.Some? ==> forall r :: r in s ==> Ahead(after.value, r)
  }

  /** Behind such a start there is more than one page. */
  lemma CrowdFillsPage(table: set<Row>, after: Option<Row>, s: set<Row>, z: Row, limit: nat)
    requires limit >= 1 && Crowd(table, s, z, limit) && StartsAhead(after, s)
    ensures !IsLast(table, after, limit)
  {
    var rows := PageRows(table, after, limit + 1);
    assert z !in s by {
      AheadIrreflexive(z);
    }
    assert s != {};
    var some :| some in s;
    if after.Some? {
      AheadTransitive(after.value, some, z);
    }
    if |rows| <= limit {
      assert forall r :: r in s + {z} ==> Eligible(table, after, r) && r in rows;
      ShortPage(rows, s + {z});
    }
  }

  /** The page ends no later than the crowd does. */
  lemma PageEndsInCrowd(table: set<Row>, after: Option<Row>, s: set<Row>, z: Row, limit: nat) returns (r: Row)
    requires limit >= 1 && Crowd(table, s, z, limit) && StartsAhead(after, s) && !IsLast(table, after, limit)
    ensures r in s
    ensures
      var last := PageRows(table, after, limit + 1)[limit - 1];
      last == r || Ahead(last, r)
  {
    var rows := PageRows(table, after, limit + 1);
    var before := rows[..limit - 1];
    if forall r :: r in s ==> r in before {
      ShortPage(before, s);
      assert false;
    }
    r :| r in s && r !in before;
    assert Eligible(table, after, r);
    if r in rows {
      var i :| 0 <= i < |rows| && rows[i] == r;
      assert forall j :: 0 <= j < limit - 1 ==> before[j] == rows[j];
    }
  }

  /** The millisecond of a row that is not behind a crowd is ahead of the whole crowd. */
  lemma TruncatedIsAhead(last: Row, r: Row, other: Row)
    requires (last == r || Ahead(last, r)) && SameMoment(r, other) && !IsWhole(other)
    ensures Ahead(Truncated(last), other)
  {
  }

  lemma {:induction false} CrowdNeverEnds(table: set<Row>, after: Option<Row>, s: set<Row>, z: Row, limit: nat, n: nat)
    requires limit >= 1 && Crowd(table, s, z, limit) && SubMillis(s) && StartsAhead(after, s)
    ensures !Ends(table, after, limit, n)
    decreases n
  {
    CrowdFillsPage(table, after, s, z, limit);
    var next := Following(table, after, limit);
    if n > 0 && next.Some? {
      var r := PageEndsInCrowd(table, after, s, z, limit);
      forall other | other in s ensures Ahead(next.value, other) {
        TruncatedIsAhead(PageRows(table, after, limit + 1)[limit - 1], r, other);
      }
      CrowdNeverEnds(table, next, s, z, limit, n - 1);
    }
  }

  /** Whatever the ids, whatever stands before the crowd and whatever comes after it. */
  lemma CrowdedNeverEnds(table: set<Row>, limit: nat)
    requires limit >= 1 && Crowded(table, limit)
    ensures !HasTraversal(table, limit)
  {
    var s, z :| Crowd(table, s, z, limit) && SubMillis(s);
    CrowdNeverEnds(table, None, s, z, limit, |table| + 1);
    EndsWithinTable(table, limit);
  }

  // A page without progress is itself a crowd.

  function RowSet(rows: seq<Row>): set<Row> {
    set r | r in rows
  }

  lemma {:induction false} OrderedSize(rows: seq<Row>)
    requires Ordered(rows)
    ensures |RowSet(rows)| == |rows|
    decreases |rows|
  {
    if rows != [] {
      var init, last := rows[..|rows| - 1], rows[|rows| - 1];
      OrderedSize(init);
      AheadIrreflexive(last);
      assert last !in init;
      assert RowSet(rows) == RowSet(init) + {last};
    }
  }

  /** Between a row and a truncated row that is not behind it everything is of one moment. */
  lemma BetweenIsSameMoment(first: Row, r: Row, last: Row)
    requires Ahead(Truncated(last), first) && (first == r || Ahead(first, r)) && (r == last || Ahead(r, last))
    ensures SameMoment(r, last)
  {
  }

  /** The start after a page is ahead of the page's first row only if the page is a crowd. */
  lemma StallIsCrowd(table: set<Row>, after: Option<Row>, limit: nat)
    requires limit >= 1 && !IsLast(table, after, limit)
    requires
      var rows := PageRows(table, after, limit + 1);
      Ahead(Truncated(rows[limit - 1]), rows[0])
    ensures
      var rows := PageRows(table, after, limit + 1);
      && Crowd(table, RowSet(rows[..limit]), rows[limit], limit)
      && rows[limit - 1] in RowSet(rows[..limit]) && !IsWhole(rows[limit - 1])
  {
    var rows := PageRows(table, after, limit + 1);
    var page, last := rows[..limit], rows[limit - 1];
    OrderedSize(page);
    assert page[limit - 1] == last;
    forall r | r in page ensures r in table && Ahead(r, rows[limit]) && SameMoment(r, last) {
      var i :| 0 <= i < limit && page[i] == r;
      assert rows[i] == r && Eligible(table, after, rows[i]);
      BetweenIsSameMoment(rows[0], r, last);
    }
    assert Eligible(table, after, rows[limit]);
    if IsWhole(last) {
      assert Truncated(last) == last;
      AheadIrreflexive(last);
      if rows[0] != last {
        AheadTransitive(last, rows[0], last);
      }
    }
  }

  /** Otherwise fewer rows are left after the page. */
  lemma ProgressShrinks(table: set<Row>, after: Option<Row>, limit: nat)
    requires limit >= 1 && Following(table, after, limit).Some?
    requires !Ahead(Following(table, after, limit).value, PageRows(table, after, limit + 1)[0])
    ensures |Behind(table, Following(table, after, limit))| < |Behind(table, after)|
  {
    var rows, next := PageRows(table, after, limit + 1), Following(table, after, limit);
    var first := rows[0];
    assert Eligible(table, after, first);
    AheadTotal(first, next.value);
    forall r | r in Behind(table, next) ensures r in Behind(table, after) - {first} {
      if first != next.value {
        AheadTransitive(first, next.value, r);
      }
      if after.Some? {
        AheadTransitive(after.value, first, r);
      }
    }
    SubsetSize(Behind(table, next), Behind(table, after) - {first});
  }

  predicate GoodIds(table: set<Row>) {
    forall r :: r in table ==> GoodId(r.user)
  }

  /** Every crowd consists of whole milliseconds. */
  ghost predicate OnlyWholeCrowds(table: set<Row>, limit: nat) {
    forall s, z :: Crowd(table, s, z, limit) ==> AllWhole(s)
  }

  lemma {:induction false} ProgressEnds(table: set<Row>, after: Option<Row>, limit: nat)
    requires limit >= 1 && GoodIds(table) && OnlyWholeCrowds(table, limit)
    ensures Ends(table, after, limit, |Behind(table, after)| + 1)
    decreases |Behind(table, after)|
  {
    if !IsLast(table, after, limit) {
      var rows := PageRows(table, after, limit + 1);
      assert Eligible(table, after, rows[limit - 1]);
      var next := Following(table, after, limit);
      assert next == Some(Truncated(rows[limit - 1]));
      if Ahead(next.value, rows[0]) {
        StallIsCrowd(table, after, limit);
        assert false;
      }
      ProgressShrinks(table, after, limit);
      ProgressEnds(table, next, limit);
      EndsLater(table, next, limit, |Behind(table, next)| + 1, |Behind(table, after)|);
    }
  }

  /** A table with decodable ids whose crowds are of whole milliseconds is listed to the end. */
  lemma OnlyWholeCrowdsEnd(table: set<Row>, limit: nat)
    requires limit >= 1 && GoodIds(table) && OnlyWholeCrowds(table, limit)
    ensures HasTraversal(table, limit)
  {
    ProgressEnds(table, None, limit);
    var visits := EndsTraverses(table, None, limit, |Behind(table, None)| + 1);
    assert Traversal(visits, None, limit) && AllOf(visits, table);
  }

  /**
   The exact condition for termination, on the table alone: with decodable ids, and unless
   some crowd has rows of both kinds, following the cursor ends if and only if no `limit`
   rows of one score, rank and millisecond, none of them on the whole millisecond, have
   another row behind them.
   */
  lemma ListingEndsIff(table: set<Row>, limit: nat)
    requires limit >= 1 && GoodIds(table) && !MixedCrowd(table, limit)
    ensures HasTraversal(table, limit) <==> !Crowded(table, limit)
  {
    if Crowded(table, limit) {
      CrowdedNeverEnds(table, limit);
    } else {
      OnlyWholeCrowdsEnd(table, limit);
    }
  }

  /** With pages of one row no crowd is mixed, so the condition is exact for all tables of decodable ids. */
  lemma OneRowPagesEndIff(table: set<Row>)
    requires GoodIds(table)
    ensures HasTraversal(table, 1) <==> !Crowded(table, 1)
  {
    forall s, z | Crowd(table, s, z, 1) ensures SubMillis(s) || AllWhole(s) {
      OneRowIsOneKind(s);
    }
    ListingEndsIff(table, 1);
  }

  lemma OneRowIsOneKind(s: set<Row>)
    requires |s| == 1
    ensures SubMillis(s) || AllWhole(s)
  {
    var r :| r in s;
    assert |s - {r}| == 0;
    assert s == {r};
  }

  // A mixed crowd can be passed or not: it depends on where the page that meets it starts.

  const WHOLE := Row(0, 0, 1000, "b")
  const WITHIN := Row(0, 0, 1001, "a")
  const BEHIND := Row(0, 0, 2000, "c")
  const AHEAD := Row(1, 0, 0, "d")

  lemma ExampleOrder()
    ensures Ahead(AHEAD, WHOLE) && Ahead(WHOLE, WITHIN) && Ahead(WITHIN, BEHIND)
    ensures Ordered([AHEAD, WHOLE, WITHIN]) && Ordered([WHOLE, WITHIN, BEHIND])
    ensures !Ahead(WHOLE, WHOLE) && !Ahead(WHOLE, AHEAD) && Ahead(Truncated(WITHIN), WHOLE)
    ensures GoodId("a") && GoodId("b") && GoodId("c") && GoodId("d")
  {
    LessIrreflexive("b");
    assert "a"[0] == 'a' && "b"[0] == 'b';
    assert Less("a", "b");
  }

  lemma MixedExample(table: set<Row>)
    requires {WHOLE, WITHIN, BEHIND} <= table
    ensures MixedCrowd(table, 2)
  {
    ExampleOrder();
    var s := {WHOLE, WITHIN};
    assert |s| == 2;
    assert WHOLE in s && WITHIN in s;
    assert Crowd(table, s, BEHIND, 2) && !SubMillis(s) && !AllWhole(s);
  }

  /** The same mixed crowd stops the listing of one table and not that of another one. */
  lemma MixedCrowdEitherWay()
    ensures MixedCrowd({WHOLE, WITHIN, BEHIND}, 2) && !HasTraversal({WHOLE, WITHIN, BEHIND}, 2)
    ensures MixedCrowd({AHEAD, WHOLE, WITHIN, BEHIND}, 2) && HasTraversal({AHEAD, WHOLE, WITHIN, BEHIND}, 2)
  {
    MixedExample({WHOLE, WITHIN, BEHIND});
    MixedExample({AHEAD, WHOLE, WITHIN, BEHIND});
    StoppedExample({WHOLE, WITHIN, BEHIND});
    PassedExample({AHEAD, WHOLE, WITHIN, BEHIND});
  }

  lemma StoppedExample(table: set<Row>)
    requires table == {WHOLE, WITHIN, BEHIND}
    ensures !HasTraversal(table, 2)
  {
    ExampleOrder();
    var rows := [WHOLE, WITHIN, BEHIND];
    assert forall r :: r in table ==> r == rows[0] || r == rows[1] || r == rows[2];
    AnswersUnique(rows, table, None, 3);
    RepeatingPageNeverEnds(table, 2);
  }

  lemma PassedExample(table: set<Row>)
    requires table == {AHEAD, WHOLE, WITHIN, BEHIND}
    ensures HasTraversal(table, 2)
  {
    ExampleOrder();
    var first, second := Read(table, [AHEAD, WHOLE, WITHIN]), Read(table, [WITHIN, BEHIND]);
    assert first.rows[0] == AHEAD && first.rows[1] == WHOLE && first.rows[2] == WITHIN;
    AheadTransitive(WHOLE, WITHIN, BEHIND);
    AheadTransitive(AHEAD, WHOLE, WITHIN);
    AheadTransitive(AHEAD, WITHIN, BEHIND);
    assert second.rows[0] == WITHIN && second.rows[1] == BEHIND;
    assert SeekOf(first.rows, 2) == Some(WHOLE);
    LastPage(second, Some(WHOLE), 2);
    MorePages(first, None, 2, [second]);
    assert Traversal([first, second], None, 2) && AllOf([first, second], table) by {
      assert [first] + [second] == [first, second];
    }
  }

  // ------------------------------------------------------------------- clean tables

  /** All ids are non-empty and colon-free and all times whole milliseconds. */
  predicate Clean(table: set<Row>) {
    forall r :: r in table ==> GoodId(r.user) && IsWhole(r)
  }

  lemma CleanListingEnds(table: set<Row>, limit: nat)
    requires limit >= 1 && Clean(table)
    ensures HasTraversal(table, limit)
  {
    forall s, z | Crowd(table, s, z, limit) ensures AllWhole(s) {
    }
    OnlyWholeCrowdsEnd(table, limit);
  }

  lemma {:induction false} OutputIsRead(visits: seq<Read>, after: Option<Row>, limit: nat, table: set<Row>, r: Row)
    requires limit >= 1 && Traversal(visits, after, limit) && AllOf(visits, table) && r in Output(visits, limit)
    ensures r in table
    decreases |visits|
  {
    var rows := visits[0].rows;
    if r in PageData(rows, limit) {
      var i :| 0 <= i < |rows| && rows[i] == r;
      assert Eligible(table, after, rows[i]);
    } else {
      OutputIsRead(visits[1..], SeekOf(rows, limit), limit, table, r);
    }
  }

  /** Whatever was listed to the end is exactly the table, and without repetition if pages end on whole milliseconds. */
  lemma ListingIsTable(visits: seq<Read>, table: set<Row>, limit: nat)
    requires limit >= 1 && Traversal(visits, None, limit) && AllOf(visits, table)
    ensures forall r :: r in Output(visits, limit) <==> r in table
    ensures NoRepeats(Output(visits, limit)) <==> WholeBoundaries(visits, limit)
  {
    forall r ensures r in Output(visits, limit) <==> r in table {
      if r in table {
        StableRowIsReturned(visits, None, limit, r);
      }
      if r in Output(visits, limit) {
        OutputIsRead(visits, None, limit, table, r);
      }
    }
    forall i, j | 0 <= i < j < |visits| && |visits[i].rows| > limit
      ensures visits[i].rows[limit - 1] in visits[j].table
    {
      ReadRowsAreThere(visits, None, limit, i);
    }
    NoRepeatsIff(visits, limit);
  }

  lemma {:induction false} ReadRowsAreThere(visits: seq<Read>, after: Option<Row>, limit: nat, i: nat)
    requires limit >= 1 && Traversal(visits, after, limit) && i < |visits| && |visits[i].rows| > limit
    ensures visits[i].rows[limit - 1] in visits[i].table
    decreases |visits|
  {
    if i == 0 {
      assert Eligible(visits[0].table, after, visits[0].rows[limit - 1]);
    } else {
      ReadRowsAreThere(visits[1..], SeekOf(visits[0].rows, limit), limit, i - 1);
    }
  }

  /**
   Following the cursor over a clean table that does not change comes to an end, and the
   pages together are the whole table, each row once, in leaderboard order.
   */
  lemma CleanTableIsListed(table: set<Row>, limit: nat) returns (visits: seq<Read>)
    requires limit >= 1 && Clean(table)
    ensures Traversal(visits, None, limit) && AllOf(visits, table)
    ensures Ordered(Output(visits, limit)) && forall r :: r in Output(visits, limit) <==> r in table
  {
    CleanListingEnds(table, limit);
    visits :| Traversal(visits, None, limit) && AllOf(visits, table);
    ListingIsTable(visits, table, limit);
    forall i | 0 <= i < |visits| && |visits[i].rows| > limit ensures IsWhole(visits[i].rows[limit - 1]) {
      ReadRowsAreThere(visits, None, limit, i);
    }
    OutputIsAfter(visits, None, limit);
  }
}
