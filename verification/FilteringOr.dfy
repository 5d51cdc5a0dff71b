/**
 What an OR plan means for whole filters: a range with both bounds is compiled into two
 clauses, so under OR each bound counts by itself.
 */
module FilteringOr {
  import opened Text
  import opened Filtering
  import opened FilteringTheorems

  predicate Bounded(r: RangeFilter) {
    r.lo.Valid? || r.hi.Valid?
  }

  predicate TwoSided(r: RangeFilter) {
    r.lo.Valid? && r.hi.Valid?
  }

  /** The row meets one of the two bounds but is outside the range. */
  predicate HalfMet(cfg: EntityConfig, r: RangeFilter, row: Record) {
    TwoSided(r) && FromOk(r.lo, ColumnOf(cfg, row, r.field)) != ToOk(r.hi, ColumnOf(cfg, row, r.field))
  }

  predicate SomeRange(cfg: EntityConfig, rs: seq<RangeFilter>, row: Record) {
    exists i :: 0 <= i < |rs| && Bounded(rs[i]) && InRange(cfg, rs[i], row)
  }

  predicate SomeHalf(cfg: EntityConfig, rs: seq<RangeFilter>, row: Record) {
    exists i :: 0 <= i < |rs| && HalfMet(cfg, rs[i], row)
  }

  predicate NoneTwoSided(rs: seq<RangeFilter>) {
    forall i :: 0 <= i < |rs| ==> !TwoSided(rs[i])
  }

  predicate NoneBounded(rs: seq<RangeFilter>) {
    forall i :: 0 <= i < |rs| ==> !Bounded(rs[i])
  }

  /** Some requested filter holds of the row, each taken as a whole. */
  predicate SomeFilterHolds(cfg: EntityConfig, req: Request, row: Record) {
    || SomeRange(cfg, req.dateRanges, row)
    || (req.statuses != [] && AnyStatus(cfg, req.statuses, row))
    || SomeRange(cfg, req.numericRanges, row)
    || (exists i :: 0 <= i < |req.addresses| && AddressOk(cfg, req.addresses[i], row))
    || (exists i :: 0 <= i < |req.booleans| && BooleanOk(cfg, req.booleans[i], row))
  }

  predicate NothingAsked(req: Request) {
    && NoneBounded(req.dateRanges) && req.statuses == [] && NoneBounded(req.numericRanges)
    && req.addresses == [] && req.booleans == []
  }

  // ---------------------------------------------------------------------- the pieces

  predicate SomeTrue(vs: seq<bool>) {
    exists i :: 0 <= i < |vs| && vs[i]
  }

  lemma SomeTrueAppend(a: seq<bool>, b: seq<bool>)
    ensures SomeTrue(a + b) <==> SomeTrue(a) || SomeTrue(b)
  {
    if SomeTrue(a) {
      var i :| 0 <= i < |a| && a[i];
      assert (a + b)[i];
    }
    if SomeTrue(b) {
      var i :| 0 <= i < |b| && b[i];
      assert (a + b)[|a| + i];
    }
  }

  lemma OnePiece(v: bool)
    ensures SomeTrue([v]) <==> v
  {
    assert [v][0] == v;
  }

  lemma RangeSomeTrue(cfg: EntityConfig, r: RangeFilter, row: Record)
    ensures SomeTrue(RangePieces(cfg, r, row)) <==> (Bounded(r) && InRange(cfg, r, row)) || HalfMet(cfg, r, row)
    ensures RangePieces(cfg, r, row) == [] <==> !Bounded(r)
  {
    var v := ColumnOf(cfg, row, r.field);
    SomeTrueAppend(if r.lo.Valid? then [FromOk(r.lo, v)] else [], if r.hi.Valid? then [ToOk(r.hi, v)] else []);
    OnePiece(FromOk(r.lo, v));
    OnePiece(ToOk(r.hi, v));
  }

  lemma {:induction false} RangesSomeTrue(cfg: EntityConfig, rs: seq<RangeFilter>, row: Record)
    ensures SomeTrue(RangesPieces(cfg, rs, row)) <==> SomeRange(cfg, rs, row) || SomeHalf(cfg, rs, row)
    ensures RangesPieces(cfg, rs, row) == [] <==> NoneBounded(rs)
    decreases |rs|
  {
    if rs != [] {
      RangesSomeTrue(cfg, rs[1..], row);
      RangeSomeTrue(cfg, rs[0], row);
      SomeTrueAppend(RangePieces(cfg, rs[0], row), RangesPieces(cfg, rs[1..], row));
      RangesCons(cfg, rs, row);
    }
  }

  lemma RangesCons(cfg: EntityConfig, rs: seq<RangeFilter>, row: Record)
    requires rs != []
    ensures SomeRange(cfg, rs, row) <==> (Bounded(rs[0]) && InRange(cfg, rs[0], row)) || SomeRange(cfg, rs[1..], row)
    ensures SomeHalf(cfg, rs, row) <==> HalfMet(cfg, rs[0], row) || SomeHalf(cfg, rs[1..], row)
    ensures NoneBounded(rs) <==> !Bounded(rs[0]) && NoneBounded(rs[1..])
  {
    SomeRangeCons(cfg, rs, row);
    SomeHalfCons(cfg, rs, row);
    assert forall i :: 0 <= i < |rs| - 1 ==> rs[1..][i] == rs[i + 1];
    assert forall i :: 1 <= i < |rs| ==> rs[i] == rs[1..][i - 1];
  }

  lemma SomeRangeCons(cfg: EntityConfig, rs: seq<RangeFilter>, row: Record)
    requires rs != []
    ensures SomeRange(cfg, rs, row) <==> (Bounded(rs[0]) && InRange(cfg, rs[0], row)) || SomeRange(cfg, rs[1..], row)
  {
    var rest := rs[1..];
    if SomeRange(cfg, rest, row) {
      var i :| 0 <= i < |rest| && Bounded(rest[i]) && InRange(cfg, rest[i], row);
      assert rs[i + 1] == rest[i];
    }
    if SomeRange(cfg, rs, row) && !(Bounded(rs[0]) && InRange(cfg, rs[0], row)) {
      var i :| 0 <= i < |rs| && Bounded(rs[i]) && InRange(cfg, rs[i], row);
      assert rs[i] == rest[i - 1];
    }
  }

  lemma SomeHalfCons(cfg: EntityConfig, rs: seq<RangeFilter>, row: Record)
    requires rs != []
    ensures SomeHalf(cfg, rs, row) <==> HalfMet(cfg, rs[0], row) || SomeHalf(cfg, rs[1..], row)
  {
    var rest := rs[1..];
    if SomeHalf(cfg, rest, row) {
      var i :| 0 <= i < |rest| && HalfMet(cfg, rest[i], row);
      assert rs[i + 1] == rest[i];
    }
    if SomeHalf(cfg, rs, row) && !HalfMet(cfg, rs[0], row) {
      var i :| 0 <= i < |rs| && HalfMet(cfg, rs[i], row);
      assert rs[i] == rest[i - 1];
    }
  }

  lemma PiecesSomeTrue(cfg: EntityConfig, req: Request, row: Record)
    ensures SomeTrue(Pieces(cfg, req, row)) <==>
            SomeFilterHolds(cfg, req, row)
            || SomeHalf(cfg, req.dateRanges, row) || SomeHalf(cfg, req.numericRanges, row)
    ensures Pieces(cfg, req, row) == [] <==> NothingAsked(req)
  {
    var d, n := RangesPieces(cfg, req.dateRanges, row), RangesPieces(cfg, req.numericRanges, row);
    var s := if req.statuses == [] then [] else [AnyStatus(cfg, req.statuses, row)];
    var a, b := AddressPieces(cfg, req.addresses, row), BooleanPieces(cfg, req.booleans, row);
    RangesSomeTrue(cfg, req.dateRanges, row);
    RangesSomeTrue(cfg, req.numericRanges, row);
    SomeTrueAppend(d, s);
    SomeTrueAppend(d + s, n);
    SomeTrueAppend(d + s + n, a);
    SomeTrueAppend(d + s + n + a, b);
    OnePiece(AnyStatus(cfg, req.statuses, row));
    ListedPieces(cfg, req, row);
  }

  lemma ListedPieces(cfg: EntityConfig, req: Request, row: Record)
    ensures SomeTrue(AddressPieces(cfg, req.addresses, row)) <==>
            exists i :: 0 <= i < |req.addresses| && AddressOk(cfg, req.addresses[i], row)
    ensures SomeTrue(BooleanPieces(cfg, req.booleans, row)) <==>
            exists i :: 0 <= i < |req.booleans| && BooleanOk(cfg, req.booleans[i], row)
  {
    var a, b := AddressPieces(cfg, req.addresses, row), BooleanPieces(cfg, req.booleans, row);
    assert forall i :: 0 <= i < |a| ==> a[i] == AddressOk(cfg, req.addresses[i], row);
    assert forall i :: 0 <= i < |b| ==> b[i] == BooleanOk(cfg, req.booleans[i], row);
  }

  // --------------------------------------------------------------------- the theorems

  /**
   An OR plan accepts a row exactly when nothing is asked, some filter holds as a whole, or
   the row meets one of the two bounds of some range.
   */
  lemma OrPlanIff(cfg: EntityConfig, req: Request, row: Record)
    requires req.combination == Or && Compile(cfg, req).Ok?
    ensures Accepts(Compile(cfg, req).value, row) <==>
            NothingAsked(req) || SomeFilterHolds(cfg, req, row)
            || SomeHalf(cfg, req.dateRanges, row) || SomeHalf(cfg, req.numericRanges, row)
  {
    OrPlanMeansAnyRequirement(cfg, req, row);
    PiecesSomeTrue(cfg, req, row);
  }

  /** Without a range that gives both bounds, an OR plan is the alternative of the requested filters. */
  lemma OneSidedOrPlan(cfg: EntityConfig, req: Request, row: Record)
    requires req.combination == Or && Compile(cfg, req).Ok?
    requires NoneTwoSided(req.dateRanges) && NoneTwoSided(req.numericRanges)
    ensures Accepts(Compile(cfg, req).value, row) <==> NothingAsked(req) || SomeFilterHolds(cfg, req, row)
  {
    OrPlanIff(cfg, req, row);
  }

  function OnlyRange(r: RangeFilter): Request {
    Request([], [], [r], [], [], Or, None)
  }

  predicate IsNumeric(i: Input) {
    i.Valid? ==> i.value.Number?
  }

  lemma OnlyRangeAccepts(cfg: EntityConfig, r: RangeFilter, row: Record)
    requires Bounded(r) && Compile(cfg, OnlyRange(r)).Ok?
    ensures Accepts(Compile(cfg, OnlyRange(r)).value, row) <==> InRange(cfg, r, row) || HalfMet(cfg, r, row)
  {
    var req := OnlyRange(r);
    OrPlanIff(cfg, req, row);
    assert req.numericRanges[0] == r;
  }

  /**
   Conversely one range with both bounds is enough for a difference: a plan for a single
   numeric range accepts exactly the rows in the range if and only if a bound is missing.
   */
  lemma SingleRangeIff(cfg: EntityConfig, r: RangeFilter)
    requires Bounded(r) && IsNumeric(r.lo) && IsNumeric(r.hi) && Compile(cfg, OnlyRange(r)).Ok?
    ensures (forall row: Record :: Accepts(Compile(cfg, OnlyRange(r)).value, row) <==> InRange(cfg, r, row))
            <==> !TwoSided(r)
  {
    if TwoSided(r) {
      RangeFieldKnown(cfg, r);
      var row: Record := map[cfg.fields[r.field].column := Number(r.lo.value.n - 1.0)];
      assert ColumnOf(cfg, row, r.field) == Number(r.lo.value.n - 1.0);
      OnlyRangeAccepts(cfg, r, row);
    } else {
      forall row: Record ensures Accepts(Compile(cfg, OnlyRange(r)).value, row) <==> InRange(cfg, r, row) {
        OnlyRangeAccepts(cfg, r, row);
      }
    }
  }

  lemma RangeFieldKnown(cfg: EntityConfig, r: RangeFilter)
    requires TwoSided(r) && IsNumeric(r.lo) && IsNumeric(r.hi) && Compile(cfg, OnlyRange(r)).Ok?
    ensures r.field in cfg.fields && r.lo.value.n <= r.hi.value.n
  {
    assert OnlyRange(r).numericRanges[0] == r;
    assert AddRanges(cfg, NumberField, [r], Acc([], 0)).Ok?;
  }
}
