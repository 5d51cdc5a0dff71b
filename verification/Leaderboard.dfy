/**
 Leaderboard pages by keyset cursor. A page is the head of the rows that come after the
 cursor in (score descending, rank, creation time, user) order; its cursor is the text of
 the last row it returns. Creation times are stored in microseconds, the cursor carries
 milliseconds.
 */
module Leaderboard {
  import opened Text

  /** The ordering columns of a leaderboard row. */
  datatype Row = Row(score: int, rank: int, createdMicros: int, user: string)

  /** `a` comes before `b` on the leaderboard; this is also the seek predicate of a cursor. */
  predicate Ahead(a: Row, b: Row) {
    a.score > b.score
    || (a.score == b.score && (a.rank < b.rank
    || (a.rank == b.rank && (a.createdMicros < b.createdMicros
    || (a.createdMicros == b.createdMicros && Less(a.user, b.user))))))
  }

  lemma AheadIrreflexive(a: Row)
    ensures !Ahead(a, a)
  {
    LessIrreflexive(a.user);
  }

  lemma AheadTransitive(a: Row, b: Row, c: Row)
    requires Ahead(a, b) && Ahead(b, c)
    ensures Ahead(a, c)
  {
    if Less(a.user, b.user) && Less(b.user, c.user) {
      LessTransitive(a.user, b.user, c.user);
    }
  }

  lemma AheadTotal(a: Row, b: Row)
    ensures a == b || Ahead(a, b) || Ahead(b, a)
  {
    LessTotal(a.user, b.user);
  }

  // ------------------------------------------------------------------- the cursor

  /** `score:rank:createdAtMs:userId`, before it is wrapped in base64. */
  function EncodeCursor(r: Row): string {
    Show(r.score) + ":" + (Show(r.rank) + ":" + (Show(r.createdMicros / 1000) + ":" + r.user))
  }

  /** None stands for the "Invalid pagination cursor" error. */
  function DecodeCursor(text: string): Option<Row> {
    var parts := Split(text, ':');
    if |parts| != 4 then None
    else
      var score, rank, createdMs := ParseNumber(parts[0]), ParseInt(parts[1]), ParseNumber(parts[2]);
      if parts[3] == "" || score.None? || rank.None? || createdMs.None? then None
      else Some(Row(score.value, rank.value, createdMs.value * 1000, parts[3]))
  }

  predicate GoodId(user: string) {
    user != "" && ':' !in user
  }

  /** The row as its cursor remembers it. */
  function Truncated(r: Row): Row {
    r.(createdMicros := r.createdMicros / 1000 * 1000)
  }

  /** Splitting three colon-free pieces and a tail that are joined by colons. */
  lemma SplitJoined(a: string, b: string, c: string, user: string)
    requires ':' !in a && ':' !in b && ':' !in c
    ensures Split(a + ":" + (b + ":" + (c + ":" + user)), ':') == [a, b, c] + Split(user, ':')
  {
    SplitCons(c, user, ':');
    SplitCons(b, c + ":" + user, ':');
    SplitCons(a, b + ":" + (c + ":" + user), ':');
    assert [a] + ([b] + ([c] + Split(user, ':'))) == [a, b, c] + Split(user, ':');
  }

  lemma CursorParts(r: Row)
    ensures
      Split(EncodeCursor(r), ':')
      == [Show(r.score), Show(r.rank), Show(r.createdMicros / 1000)] + Split(r.user, ':')
  {
    var ms := r.createdMicros / 1000;
    ShowHasNo(r.score, ':');
    ShowHasNo(r.rank, ':');
    ShowHasNo(ms, ':');
    SplitJoined(Show(r.score), Show(r.rank), Show(ms), r.user);
  }

  lemma DecodeEncode(r: Row)
    ensures DecodeCursor(EncodeCursor(r)) == if GoodId(r.user) then Some(Truncated(r)) else None
  {
    var ms := r.createdMicros / 1000;
    CursorParts(r);
    ParseShow(r.score);
    ParseShow(r.rank);
    ParseShow(ms);
    SplitOnlyWhenPresent(r.user, ':');
    if ':' !in r.user {
      SplitFree(r.user, ':');
    }
  }

  /**
   The cursor gives its row back exactly when the id is non-empty and colon-free and the
   time is whole milliseconds.
   */
  lemma CursorRoundTripIff(r: Row)
    ensures DecodeCursor(EncodeCursor(r)) == Some(r) <==> GoodId(r.user) && r.createdMicros % 1000 == 0
  {
    DecodeEncode(r);
  }

  // --------------------------------------------------------------------- one page

  ghost predicate Eligible(table: set<Row>, after: Option<Row>, r: Row) {
    r in table && (after.Some? ==> Ahead(after.value, r))
  }

  predicate Ordered(rows: seq<Row>) {
    forall i, j :: 0 <= i < j < |rows| ==> Ahead(rows[i], rows[j])
  }

  /** What the database answers: the first `take` eligible rows in leaderboard order. */
  ghost predicate Answers(rows: seq<Row>, table: set<Row>, after: Option<Row>, take: nat) {
    && Ordered(rows) && |rows| <= take
    && (forall i :: 0 <= i < |rows| ==> Eligible(table, after, rows[i]))
    && (forall r :: Eligible(table, after, r) && r !in rows ==>
          |rows| == take && forall i :: 0 <= i < |rows| ==> Ahead(rows[i], r))
  }

  datatype Page = Page(data: seq<Row>, nextCursor: Option<string>, hasMore: bool)

  function PageData(rows: seq<Row>, limit: nat): seq<Row> {
    if |rows| > limit then rows[..limit] else rows
  }

  /** The response built from the `limit + 1` rows that were asked for. */
  function MakePage(rows: seq<Row>, limit: nat): Page {
    var hasMore := |rows| > limit;
    var data := PageData(rows, limit);
    Page(data, if hasMore && |data| > 0 then Some(EncodeCursor(data[|data| - 1])) else None, hasMore)
  }

  /**
   The leaderboard order, told from the columns: higher scores first, then lower ranks, then
   earlier rows, then lesser users.
   */
  lemma OrderIsByColumns(rows: seq<Row>, i: nat, j: nat)
    requires Ordered(rows) && i < j < |rows|
    ensures
      var a, b := rows[i], rows[j];
      && a.score >= b.score
      && (a.score == b.score ==> a.rank <= b.rank)
      && (a.score == b.score && a.rank == b.rank ==> a.createdMicros <= b.createdMicros)
      && (a.score == b.score && a.rank == b.rank && a.createdMicros == b.createdMicros ==> Less(a.user, b.user))
  {
    assert Ahead(rows[i], rows[j]);
  }

  // -------------------------------------------------------------------- traversal

  /** One read of the leaderboard: the table at that moment and the rows the query returned. */
  datatype Read = Read(table: set<Row>, rows: seq<Row>)

  /** Where the page after `rows` starts: behind its last row to the millisecond, if its cursor is valid. */
  function SeekOf(rows: seq<Row>, limit: nat): Option<Row>
    requires limit >= 1
  {
    if |rows| > limit && GoodId(rows[limit - 1].user) then Some(Truncated(rows[limit - 1])) else None
  }

  /** The visits go on behind each page's seek, from `after` to the last page, over whatever the tables are. */
  ghost predicate Traversal(visits: seq<Read>, after: Option<Row>, limit: nat)
    requires limit >= 1
    decreases |visits|
  {
    && visits != [] && Answers(visits[0].rows, visits[0].table, after, limit + 1)
    && if |visits[0].rows| <= limit then |visits| == 1
       else SeekOf(visits[0].rows, limit).Some? && Traversal(visits[1..], SeekOf(visits[0].rows, limit), limit)
  }

  /** The same as a client sees it: the next request carries the text of `nextCursor`, which has to be valid. */
  ghost predicate FollowsCursors(visits: seq<Read>, after: Option<Row>, limit: nat)
    decreases |visits|
  {
    && visits != [] && Answers(visits[0].rows, visits[0].table, after, limit + 1)
    && (var next := MakePage(visits[0].rows, limit).nextCursor;
        if next.None? then |visits| == 1
        else DecodeCursor(next.value).Some? && FollowsCursors(visits[1..], DecodeCursor(next.value), limit))
  }

  lemma CursorSeeks(rows: seq<Row>, limit: nat)
    requires limit >= 1
    ensures MakePage(rows, limit).nextCursor.Some? <==> |rows| > limit
    ensures |rows| > limit ==> DecodeCursor(MakePage(rows, limit).nextCursor.value) == SeekOf(rows, limit)
  {
    PageCursor(rows, limit);
    if |rows| > limit {
      DecodesTo(MakePage(rows, limit).nextCursor.value, rows[limit - 1]);
    }
  }

  lemma PageCursor(rows: seq<Row>, limit: nat)
    requires limit >= 1
    ensures MakePage(rows, limit).nextCursor == if |rows| > limit then Some(EncodeCursor(rows[limit - 1])) else None
  {
  }

  lemma DecodesTo(text: string, last: Row)
    requires text == EncodeCursor(last)
    ensures DecodeCursor(text) == if GoodId(last.user) then Some(Truncated(last)) else None
  {
    DecodeEncode(last);
  }

  /** Following the cursor texts is going on behind the rows they stand for. */
  lemma {:induction false} CursorsTraverse(visits: seq<Read>, after: Option<Row>, limit: nat)
    requires limit >= 1
    ensures FollowsCursors(visits, after, limit) <==> Traversal(visits, after, limit)
    decreases |visits|
  {
    if visits != [] {
      var rows := visits[0].rows;
      CursorSeeks(rows, limit);
      if |rows| > limit && SeekOf(rows, limit).Some? {
        CursorsTraverse(visits[1..], SeekOf(rows, limit), limit);
      }
    }
  }

  /** Everything returned, page after page. */
  function Output(visits: seq<Read>, limit: nat): seq<Row>
    decreases |visits|
  {
    if visits == [] then [] else PageData(visits[0].rows, limit) + Output(visits[1..], limit)
  }

  predicate InAll(visits: seq<Read>, r: Row) {
    forall i :: 0 <= i < |visits| ==> r in visits[i].table
  }

  lemma TruncatedIsNotAfter(r: Row)
    ensures Truncated(r) == r || Ahead(Truncated(r), r)
  {
  }

  /** A row that is not on a page comes after everything on it, and the page is full. */
  lemma OffPageIsLater(read: Read, after: Option<Row>, limit: nat, r: Row)
    requires limit >= 1 && Answers(read.rows, read.table, after, limit + 1) && Eligible(read.table, after, r)
    requires r !in PageData(read.rows, limit)
    ensures
      |read.rows| > limit && Ahead(read.rows[limit - 1], r)
  {
    var rows := read.rows;
    if r in rows {
      assert |rows| > limit;
      var i :| 0 <= i < |rows| && rows[i] == r;
      assert forall j :: 0 <= j < limit ==> rows[..limit][j] == rows[j];
      assert i >= limit;
    }
  }

  lemma LastIsLast(rows: seq<Row>, limit: nat, i: nat)
    requires 1 <= limit < |rows| && Ordered(rows) && i < limit
    ensures rows[i] == rows[limit - 1] || Ahead(rows[i], rows[limit - 1])
  {
  }

  lemma RestIsBehind(read: Read, after: Option<Row>, limit: nat, r: Row, i: nat)
    requires limit >= 1 && Answers(read.rows, read.table, after, limit + 1) && Eligible(read.table, after, r)
    requires r !in PageData(read.rows, limit) && i < |PageData(read.rows, limit)|
    ensures Ahead(PageData(read.rows, limit)[i], r)
  {
    OffPageIsLater(read, after, limit, r);
    LastIsLast(read.rows, limit, i);
    if read.rows[i] != read.rows[limit - 1] {
      AheadTransitive(read.rows[i], read.rows[limit - 1], r);
    }
  }

  lemma NextRowIsOffPage(rows: seq<Row>, limit: nat)
    requires limit < |rows| && Ordered(rows)
    ensures rows[limit] !in PageData(rows, limit)
  {
    AheadIrreflexive(rows[limit]);
  }

  /**
   What a page says of the table: it holds the first `limit` rows behind the cursor, and
   `hasMore` and the next cursor are there if and only if a row behind the cursor is left.
   */
  lemma PageTellsWhatIsLeft(read: Read, after: Option<Row>, limit: nat)
    requires limit >= 1 && Answers(read.rows, read.table, after, limit + 1)
    ensures
      var page := MakePage(read.rows, limit);
      && (page.hasMore <==> exists r :: Eligible(read.table, after, r) && r !in page.data)
      && (page.nextCursor.Some? <==> page.hasMore) && |page.data| <= limit && (page.hasMore ==> |page.data| == limit)
      && (page.hasMore ==> page.nextCursor == Some(EncodeCursor(page.data[limit - 1])))
      && forall i, r :: 0 <= i < |page.data| && Eligible(read.table, after, r) && r !in page.data ==>
           Ahead(page.data[i], r)
  {
    var rows, data := read.rows, PageData(read.rows, limit);
    if |rows| > limit {
      assert Eligible(read.table, after, rows[limit]);
      NextRowIsOffPage(rows, limit);
    }
    forall r | Eligible(read.table, after, r) && r !in data ensures |rows| > limit {
      OffPageIsLater(read, after, limit, r);
    }
    forall i, r | 0 <= i < |data| && Eligible(read.table, after, r) && r !in data ensures Ahead(data[i], r) {
      RestIsBehind(read, after, limit, r, i);
    }
  }

  /**
   Nothing is skipped: a row that stays unchanged in the table through the whole traversal
   is returned, whatever is inserted, removed or re-scored between the pages.
   */
  lemma {:induction false} StableRowIsReturned(visits: seq<Read>, after: Option<Row>, limit: nat, r: Row)
    requires limit >= 1 && Traversal(visits, after, limit) && InAll(visits, r)
    requires after.Some? ==> Ahead(after.value, r)
    ensures r in Output(visits, limit)
    decreases |visits|
  {
    if r !in PageData(visits[0].rows, limit) {
      OffPageIsLater(visits[0], after, limit, r);
      var last := visits[0].rows[limit - 1];
      TruncatedIsNotAfter(last);
      if Truncated(last) != last {
        AheadTransitive(Truncated(last), last, r);
      }
      StableRowIsReturned(visits[1..], Some(Truncated(last)), limit, r);
    }
  }

  predicate IsWhole(r: Row) {
    r.createdMicros % 1000 == 0
  }

  /** Every page that has a successor ends in a row created on a whole millisecond. */
  predicate WholeBoundaries(visits: seq<Read>, limit: nat)
    requires limit >= 1
  {
    forall i :: 0 <= i < |visits| && |visits[i].rows| > limit ==> IsWhole(visits[i].rows[limit - 1])
  }

  /** After a page with a cursor the traversal goes on behind the last row of that page. */
  lemma TraversalGoesOn(visits: seq<Read>, after: Option<Row>, limit: nat)
    requires limit >= 1 && Traversal(visits, after, limit) && WholeBoundaries(visits, limit)
    requires |visits[0].rows| > limit
    ensures
      var rows := visits[0].rows;
      Traversal(visits[1..], Some(rows[limit - 1]), limit) && WholeBoundaries(visits[1..], limit)
  {
    var last := visits[0].rows[limit - 1];
    assert IsWhole(last) && Truncated(last) == last;
  }

  lemma {:induction false} OutputIsAfter(visits: seq<Read>, after: Option<Row>, limit: nat)
    requires limit >= 1 && Traversal(visits, after, limit) && WholeBoundaries(visits, limit)
    ensures Ordered(Output(visits, limit)) && AllAfter(after, Output(visits, limit))
    decreases |visits|
  {
    var rows := visits[0].rows;
    var data := PageData(rows, limit);
    PageIsOrdered(visits[0], after, limit);
    if |rows| > limit {
      TraversalGoesOn(visits, after, limit);
      OutputIsAfter(visits[1..], Some(rows[limit - 1]), limit);
      JoinOrdered(data, Output(visits[1..], limit), rows[limit - 1], after);
    } else {
      assert visits[1..] == [];
      assert Output(visits, limit) == data;
    }
  }

  predicate AllAfter(after: Option<Row>, rows: seq<Row>) {
    after.Some? ==> forall i :: 0 <= i < |rows| ==> Ahead(after.value, rows[i])
  }

  lemma PageIsOrdered(read: Read, after: Option<Row>, limit: nat)
    requires Answers(read.rows, read.table, after, limit + 1)
    ensures
      var data := PageData(read.rows, limit);
      && Ordered(data) && AllAfter(after, data)
      && (|read.rows| > limit >= 1 ==> |data| == limit && data[limit - 1] == read.rows[limit - 1])
  {
    var data := PageData(read.rows, limit);
    assert forall i :: 0 <= i < |data| ==> data[i] == read.rows[i];
  }

  lemma JoinOrdered(xs: seq<Row>, ys: seq<Row>, last: Row, after: Option<Row>)
    requires Ordered(xs) && Ordered(ys) && xs != [] && last == xs[|xs| - 1]
    requires AllAfter(Some(last), ys) && AllAfter(after, xs)
    ensures Ordered(xs + ys) && AllAfter(after, xs + ys)
  {
    forall i, j | 0 <= i < |xs| && 0 <= j < |ys| ensures Ahead(xs[i], ys[j]) {
      if i < |xs| - 1 {
        AheadTransitive(xs[i], last, ys[j]);
      }
    }
    if after.Some? {
      forall j | 0 <= j < |ys| ensures Ahead(after.value, ys[j]) {
        AheadTransitive(after.value, last, ys[j]);
      }
    }
  }

  /**
   Keyset pagination over a changing table: when every page with a successor ends on a
   whole millisecond, following the cursor from the first page returns rows in
   leaderboard order without repetition, and every row that stays unchanged exactly once.
   */
  lemma StableRowsExactlyOnce(visits: seq<Read>, limit: nat, r: Row)
    requires limit >= 1 && Traversal(visits, None, limit) && WholeBoundaries(visits, limit)
    ensures Ordered(Output(visits, limit))
    ensures InAll(visits, r) ==>
              exists i :: 0 <= i < |Output(visits, limit)| && Output(visits, limit)[i] == r
                          && forall j :: 0 <= j < |Output(visits, limit)| && Output(visits, limit)[j] == r ==> j == i
  {
    OutputIsAfter(visits, None, limit);
    var out := Output(visits, limit);
    if InAll(visits, r) {
      StableRowIsReturned(visits, None, limit, r);
      var i :| 0 <= i < |out| && out[i] == r;
      forall j | 0 <= j < |out| && out[j] == r ensures j == i {
        AheadIrreflexive(r);
      }
    }
  }

  // ------------------------------------------------------- sub-millisecond times

  predicate NoRepeats(rows: seq<Row>) {
    forall i, j :: 0 <= i < j < |rows| ==> rows[i] != rows[j]
  }

  lemma OrderedHasNoRepeats(rows: seq<Row>)
    requires Ordered(rows)
    ensures NoRepeats(rows)
  {
    forall i, j | 0 <= i < j < |rows| ensures rows[i] != rows[j] {
      AheadIrreflexive(rows[i]);
    }
  }

  /** The last row of a page is still there whenever a later page is read. */
  predicate BoundariesStay(visits: seq<Read>, limit: nat)
    requires limit >= 1
  {
    forall i, j :: 0 <= i < j < |visits| && |visits[i].rows| > limit ==> visits[i].rows[limit - 1] in visits[j].table
  }

  /** A page that ends within a millisecond is followed by pages that return its last row again. */
  lemma BoundaryComesAgain(visits: seq<Read>, after: Option<Row>, limit: nat)
    requires limit >= 1 && Traversal(visits, after, limit) && BoundariesStay(visits, limit)
    requires |visits[0].rows| > limit && !IsWhole(visits[0].rows[limit - 1])
    ensures visits[0].rows[limit - 1] in Output(visits[1..], limit)
  {
    var last := visits[0].rows[limit - 1];
    TruncatedIsNotAfter(last);
    StableRowIsReturned(visits[1..], Some(Truncated(last)), limit, last);
  }

  lemma RepeatInLater(xs: seq<Row>, ys: seq<Row>)
    requires !NoRepeats(ys) || exists r :: r in xs && r in ys
    ensures !NoRepeats(xs + ys)
  {
    if !NoRepeats(ys) {
      var i, j :| 0 <= i < j < |ys| && ys[i] == ys[j];
      assert (xs + ys)[|xs| + i] == (xs + ys)[|xs| + j];
    } else {
      var r :| r in xs && r in ys;
      var i :| 0 <= i < |xs| && xs[i] == r;
      var j :| 0 <= j < |ys| && ys[j] == r;
      assert (xs + ys)[i] == (xs + ys)[|xs| + j];
    }
  }

  lemma {:induction false} SubMillisRepeats(visits: seq<Read>, after: Option<Row>, limit: nat)
    requires limit >= 1 && Traversal(visits, after, limit) && BoundariesStay(visits, limit)
    requires !WholeBoundaries(visits, limit)
    ensures !NoRepeats(Output(visits, limit))
    decreases |visits|
  {
    var rows := visits[0].rows;
    var data := PageData(rows, limit);
    if |rows| > limit && !IsWhole(rows[limit - 1]) {
      BoundaryComesAgain(visits, after, limit);
      assert data[limit - 1] == rows[limit - 1];
    } else {
      SubMillisRepeats(visits[1..], SeekOf(rows, limit), limit);
    }
    RepeatInLater(data, Output(visits[1..], limit));
  }

  /**
   The exact condition: a traversal in which the last row of each page is still there
   later on, in particular one of a table that does not change, returns no row twice if
   and only if every page with a successor ends on a whole millisecond.
   */
  lemma NoRepeatsIff(visits: seq<Read>, limit: nat)
    requires limit >= 1 && Traversal(visits, None, limit) && BoundariesStay(visits, limit)
    ensures NoRepeats(Output(visits, limit)) <==> WholeBoundaries(visits, limit)
  {
    if WholeBoundaries(visits, limit) {
      OutputIsAfter(visits, None, limit);
      OrderedHasNoRepeats(Output(visits, limit));
    } else {
      SubMillisRepeats(visits, None, limit);
    }
  }

  /**
   No row of a page is selected again by the next page if and only if the last row of the
   page was created on a whole millisecond; otherwise that row comes back, and with it
   every row of the page that is behind the truncated cursor.
   */
  lemma PageRowsReturnIff(rows: seq<Row>, table: set<Row>, limit: nat)
    requires 1 <= limit < |rows| && Ordered(rows) && SeekOf(rows, limit).Some?
    requires forall i :: 0 <= i < limit ==> rows[i] in table
    ensures
      IsWhole(rows[limit - 1]) <==> forall i :: 0 <= i < limit ==> !Eligible(table, SeekOf(rows, limit), rows[i])
  {
    var last := rows[limit - 1];
    AheadIrreflexive(last);
    TruncatedIsNotAfter(last);
    if IsWhole(last) {
      forall i | 0 <= i < limit ensures !Ahead(last, rows[i]) {
        if i < limit - 1 && Ahead(last, rows[i]) {
          AheadTransitive(last, rows[i], last);
        }
      }
    }
  }
}
