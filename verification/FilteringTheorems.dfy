/** A compiled filter means what the request asked for. */
module FilteringTheorems {
  import opened Filtering

  // ---------------------------------------------------------- parameter numbering

  /** The parameters a clause refers to. */
  function Refs(sql: Sql): set<string> {
    match sql
    case AtLeast(_, p) => {p}
    case AtMost(_, p) => {p}
    case LowerIn(_, p) => {p}
    case Equals(_, p) => {p}
    case AnyGroup(groups) => set g, i | 0 <= g < |groups| && 0 <= i < |groups[g]| :: groups[g][i].param
  }

  /** The names numbered from..to-1. */
  function Names(from: nat, to: nat): set<string> {
    set i: nat | from <= i < to :: Name(i)
  }

  lemma NameIn(i: nat, from: nat, to: nat)
    ensures Name(i) in Names(from, to) <==> from <= i < to
  {
    if Name(i) in Names(from, to) {
      var j: nat :| from <= j < to && Name(j) == Name(i);
      NameInjective(i, j);
    }
  }

  lemma NamesDisjoint(a: nat, b: nat, c: nat, d: nat)
    requires b <= c
    ensures Names(a, b) !! Names(c, d)
  {
    forall n | n in Names(a, b) ensures n !in Names(c, d) {
      var i: nat :| a <= i < b && Name(i) == n;
      NameIn(i, c, d);
    }
  }

  lemma NamesSplit(a: nat, b: nat, c: nat)
    requires a <= b <= c
    ensures Names(a, c) == Names(a, b) + Names(b, c)
  {
  }

  lemma NamesOne(i: nat)
    ensures Names(i, i + 1) == {Name(i)} && Names(i, i) == {}
  {
  }

  /** The clause owns exactly the parameters from..to-1 and refers to no other. */
  predicate Owns(c: Clause, from: nat, to: nat) {
    from <= to && c.parameters.Keys == Names(from, to) && Refs(c.sql) <= c.parameters.Keys
  }

  /** The clauses own consecutive ranges of parameters, from 0 up to `index`. */
  ghost predicate Numbered(clauses: seq<Clause>, index: nat)
    decreases |clauses|, 1
  {
    if clauses == [] then index == 0 else exists from: nat :: LastFrom(clauses, from, index)
  }

  /** The last clause owns from..index-1, and the clauses before it are numbered up to there. */
  ghost predicate LastFrom(clauses: seq<Clause>, from: nat, index: nat)
    requires clauses != []
    decreases |clauses|, 0
  {
    Owns(clauses[|clauses| - 1], from, index) && Numbered(clauses[..|clauses| - 1], from)
  }

  lemma NumberedPush(acc: Acc, c: Clause, used: nat)
    requires Numbered(acc.clauses, acc.index) && Owns(c, acc.index, acc.index + used)
    ensures Numbered(Push(acc, c, used).clauses, Push(acc, c, used).index)
  {
    var next := Push(acc, c, used).clauses;
    assert next[..|next| - 1] == acc.clauses && next[|next| - 1] == c;
    assert LastFrom(next, acc.index, acc.index + used);
  }

  lemma SingleOwns(sql: Sql, i: nat, v: Param)
    requires !sql.AnyGroup? && sql.param == Name(i)
    ensures Owns(Single(sql, Name(i), v), i, i + 1)
  {
    NamesOne(i);
  }

  lemma {:induction false} TestKeys(cs: seq<Condition>, i: nat)
    ensures TestParams(cs, i).Keys == Names(i, i + |cs|)
    decreases |cs|
  {
    NamesOne(i);
    if cs != [] {
      TestKeys(cs[1..], i + 1);
      NamesSplit(i, i + 1, i + |cs|);
    }
  }

  /** Parameter number `n` is the value of the condition at that place. */
  lemma {:induction false} TestValue(cs: seq<Condition>, i: nat, n: nat)
    requires i <= n < i + |cs|
    ensures Name(n) in TestParams(cs, i) && TestParams(cs, i)[Name(n)] == One(cs[n - i].value)
    decreases |cs|
  {
    if n > i {
      TestValue(cs[1..], i + 1, n);
    } else {
      TestKeys(cs[1..], i + 1);
      NameIn(i, i + 1, i + |cs|);
    }
  }

  /** The names in a status block. */
  function TestNames(tests: seq<Test>): set<string> {
    set k | 0 <= k < |tests| :: tests[k].param
  }

  function GroupNames(groups: seq<seq<Test>>): set<string> {
    Refs(AnyGroup(groups))
  }

  lemma GroupNamesCons(g: seq<Test>, rest: seq<seq<Test>>)
    ensures GroupNames([g] + rest) == TestNames(g) + GroupNames(rest)
  {
    var all := [g] + rest;
    forall n | n in GroupNames(rest) ensures n in GroupNames(all) {
      var i, k :| 0 <= i < |rest| && 0 <= k < |rest[i]| && rest[i][k].param == n;
      assert all[i + 1][k].param == n;
    }
    forall n | n in TestNames(g) ensures n in GroupNames(all) {
      var k :| 0 <= k < |g| && g[k].param == n;
      assert all[0][k].param == n;
    }
    forall n | n in GroupNames(all) ensures n in TestNames(g) + GroupNames(rest) {
      var i, k :| 0 <= i < |all| && 0 <= k < |all[i]| && all[i][k].param == n;
      if i > 0 {
        assert rest[i - 1][k].param == n;
      }
    }
  }

  lemma TestNamesOwn(cs: seq<Condition>, i: nat)
    ensures TestNames(Tests(cs, i)) <= Names(i, i + |cs|)
  {
    forall p | p in TestNames(Tests(cs, i)) ensures p in Names(i, i + |cs|) {
      var k :| 0 <= k < |Tests(cs, i)| && Tests(cs, i)[k].param == p;
      NameIn(i + k, i, i + |cs|);
    }
  }

  lemma JoinNames(tests: seq<Test>, groups: seq<seq<Test>>, all: seq<seq<Test>>, i: nat, j: nat, k: nat)
    requires all == [tests] + groups
    requires i <= j <= k && TestNames(tests) <= Names(i, j) && GroupNames(groups) <= Names(j, k)
    ensures GroupNames(all) <= Names(i, k)
  {
    NamesSplit(i, j, k);
    GroupNamesCons(tests, groups);
  }

  lemma {:induction false} GroupNamesOwn(css: seq<seq<Condition>>, i: nat, to: nat)
    requires to == i + |Flat(css)|
    ensures GroupNames(Groups(css, i)) <= Names(i, to)
    decreases |css|
  {
    if css != [] {
      var j := i + |css[0]|;
      GroupNamesOwn(css[1..], j, to);
      TestNamesOwn(css[0], i);
      JoinNames(Tests(css[0], i), Groups(css[1..], j), Groups(css, i), i, j, to);
    }
  }

  /** The clause of a status block owns the names of its conditions. */
  lemma BlockOwns(css: seq<seq<Condition>>, i: nat)
    ensures Owns(Clause(AnyGroup(Groups(css, i)), TestParams(Flat(css), i)), i, i + |Flat(css)|)
  {
    TestKeys(Flat(css), i);
    GroupNamesOwn(css, i, i + |Flat(css)|);
  }

  // ----------------------------------------------------------- one environment

  lemma EvalDependsOnRefs(sql: Sql, a: Env, b: Env, row: Record)
    requires forall p :: p in Refs(sql) ==> p in a && p in b && a[p] == b[p]
    ensures Eval(sql, a, row) == Eval(sql, b, row)
  {
    if sql.AnyGroup? {
      forall g | 0 <= g < |sql.groups| ensures EvalGroup(sql.groups[g], a, row) == EvalGroup(sql.groups[g], b, row) {
        forall i | 0 <= i < |sql.groups[g]|
          ensures Bound(a, sql.groups[g][i].param) == Bound(b, sql.groups[g][i].param)
        {
          assert sql.groups[g][i].param in Refs(sql);
        }
      }
    }
  }

  lemma {:induction false} MergedKeys(clauses: seq<Clause>, index: nat)
    requires Numbered(clauses, index)
    ensures Merged(clauses).Keys <= Names(0, index)
    decreases |clauses|
  {
    if clauses != [] {
      var from: nat :| LastFrom(clauses, from, index);
      MergedKeys(clauses[..|clauses| - 1], from);
      NamesSplit(0, from, index);
    }
  }

  /** The merged environment gives every clause its own parameters. */
  lemma {:induction false} MergedKeepsParameters(clauses: seq<Clause>, index: nat, i: nat, p: string)
    requires Numbered(clauses, index) && i < |clauses| && p in clauses[i].parameters
    ensures p in Merged(clauses) && Merged(clauses)[p] == clauses[i].parameters[p]
    decreases |clauses|
  {
    var init, last := clauses[..|clauses| - 1], clauses[|clauses| - 1];
    var from: nat :| LastFrom(clauses, from, index);
    if i < |init| {
      MergedKeepsParameters(init, from, i, p);
      MergedKeys(init, from);
      NamesDisjoint(0, from, from, index);
    }
  }

  /**
   All generated names are distinct across the clauses, so a clause means the same under
   the one environment of the whole query as under its own parameters.
   */
  lemma OneEnvironmentIsEnough(clauses: seq<Clause>, index: nat, i: nat, row: Record)
    requires Numbered(clauses, index) && i < |clauses|
    ensures Eval(clauses[i].sql, Merged(clauses), row) == Eval(clauses[i].sql, clauses[i].parameters, row)
  {
    forall p | p in Refs(clauses[i].sql)
      ensures p in Merged(clauses) && p in clauses[i].parameters && Merged(clauses)[p] == clauses[i].parameters[p]
    {
      RefsAreOwned(clauses, index, i);
      MergedKeepsParameters(clauses, index, i, p);
    }
    EvalDependsOnRefs(clauses[i].sql, Merged(clauses), clauses[i].parameters, row);
  }

  lemma {:induction false} RefsAreOwned(clauses: seq<Clause>, index: nat, i: nat)
    requires Numbered(clauses, index) && i < |clauses|
    ensures Refs(clauses[i].sql) <= clauses[i].parameters.Keys
    decreases |clauses|
  {
    var init := clauses[..|clauses| - 1];
    var from: nat :| LastFrom(clauses, from, index);
    if i < |init| {
      RefsAreOwned(init, from, i);
    }
  }

  // ------------------------------------------------------------ what was asked for

  /** The single requirements of a request and whether the row meets each. */
  function Verdicts(clauses: seq<Clause>, row: Record): seq<bool> {
    seq(|clauses|, i requires 0 <= i < |clauses| => Eval(clauses[i].sql, clauses[i].parameters, row))
  }

  lemma VerdictsPush(acc: Acc, c: Clause, used: nat, row: Record)
    ensures Verdicts(Push(acc, c, used).clauses, row) == Verdicts(acc.clauses, row) + [Eval(c.sql, c.parameters, row)]
  {
  }

  function ColumnOf(cfg: EntityConfig, row: Record, field: string): Value {
    if field in cfg.fields then Column(row, cfg.fields[field].column) else Null
  }

  /** `v` is at least the lower bound, if there is one. */
  predicate FromOk(lo: Input, v: Value) {
    lo.Valid? ==> NotNullAndNotGreater(lo.value, v)
  }

  predicate ToOk(hi: Input, v: Value) {
    hi.Valid? ==> NotNullAndNotGreater(v, hi.value)
  }

  function RangePieces(cfg: EntityConfig, r: RangeFilter, row: Record): seq<bool> {
    var v := ColumnOf(cfg, row, r.field);
    (if r.lo.Valid? then [FromOk(r.lo, v)] else []) + (if r.hi.Valid? then [ToOk(r.hi, v)] else [])
  }

  function RangesPieces(cfg: EntityConfig, rs: seq<RangeFilter>, row: Record): seq<bool> {
    if rs == [] then [] else RangePieces(cfg, rs[0], row) + RangesPieces(cfg, rs[1..], row)
  }

  /** The row meets all conditions. */
  predicate MeetsAll(cs: seq<Condition>, row: Record) {
    forall k :: 0 <= k < |cs| ==> Compare(Column(row, cs[k].column), cs[k].op, cs[k].value)
  }

  predicate HasStatus(cfg: EntityConfig, status: string, row: Record) {
    MeetsAll(Conditions(cfg, status), row)
  }

  predicate AnyStatus(cfg: EntityConfig, statuses: seq<string>, row: Record) {
    exists i :: 0 <= i < |statuses| && HasStatus(cfg, statuses[i], row)
  }

  predicate AddressOk(cfg: EntityConfig, f: AddressFilter, row: Record) {
    var v := ColumnOf(cfg, row, f.field);
    v.Word? && exists i :: 0 <= i < |f.addresses| && Lower(v.s) == Lower(Trim(f.addresses[i]))
  }

  predicate BooleanOk(cfg: EntityConfig, f: BooleanFilter, row: Record) {
    ParseBoolean(f.value).Some? && ColumnOf(cfg, row, f.field) == Bool(ParseBoolean(f.value).value)
  }

  function AddressPieces(cfg: EntityConfig, fs: seq<AddressFilter>, row: Record): seq<bool> {
    seq(|fs|, i requires 0 <= i < |fs| => AddressOk(cfg, fs[i], row))
  }

  function BooleanPieces(cfg: EntityConfig, fs: seq<BooleanFilter>, row: Record): seq<bool> {
    seq(|fs|, i requires 0 <= i < |fs| => BooleanOk(cfg, fs[i], row))
  }

  /** Every single requirement of the request, in the order of the clauses. */
  function Pieces(cfg: EntityConfig, req: Request, row: Record): seq<bool> {
    RangesPieces(cfg, req.dateRanges, row)
    + (if req.statuses == [] then [] else [AnyStatus(cfg, req.statuses, row)])
    + RangesPieces(cfg, req.numericRanges, row)
    + AddressPieces(cfg, req.addresses, row)
    + BooleanPieces(cfg, req.booleans, row)
  }

  // --------------------------------------------------------------- each kind of filter

  /** `acc` numbers its parameters consecutively and its clauses have the verdicts `vs` on the row. */
  ghost predicate Means(acc: Acc, row: Record, vs: seq<bool>) {
    Numbered(acc.clauses, acc.index) && Verdicts(acc.clauses, row) == vs
  }

  lemma MeansPush(acc: Acc, c: Clause, used: nat, row: Record, vs: seq<bool>)
    requires Means(acc, row, vs) && Owns(c, acc.index, acc.index + used)
    ensures Means(Push(acc, c, used), row, vs + [Eval(c.sql, c.parameters, row)])
  {
    NumberedPush(acc, c, used);
    VerdictsPush(acc, c, used, row);
  }

  lemma MeansSingle(acc: Acc, sql: Sql, v: Param, row: Record, vs: seq<bool>)
    requires Means(acc, row, vs) && !sql.AnyGroup? && sql.param == Name(acc.index)
    ensures Means(Push(acc, Single(sql, Name(acc.index), v), 1), row, vs + [Eval(sql, map[Name(acc.index) := v], row)])
  {
    SingleOwns(sql, acc.index, v);
    MeansPush(acc, Single(sql, Name(acc.index), v), 1, row, vs);
  }

  /** A clause with one parameter, whatever its name. */
  lemma BoundsMean(column: string, p: string, v: Value, row: Record)
    ensures Eval(AtLeast(column, p), map[p := One(v)], row) == FromOk(Valid(v), Column(row, column))
    ensures Eval(AtMost(column, p), map[p := One(v)], row) == ToOk(Valid(v), Column(row, column))
    ensures v.Bool? ==> (Eval(Equals(column, p), map[p := One(v)], row) <==> Column(row, column) == v)
  {
  }

  lemma LoMeans(cfg: EntityConfig, r: RangeFilter, acc: Acc, row: Record, vs: seq<bool>) returns (acc': Acc)
    requires Means(acc, row, vs) && r.field in cfg.fields
    ensures acc' == if r.lo.Valid? then
                      Push(acc, Single(AtLeast(cfg.fields[r.field].column, Name(acc.index)), Name(acc.index),
                                       One(r.lo.value)), 1)
                    else acc
    ensures Means(acc', row, vs + if r.lo.Valid? then [FromOk(r.lo, ColumnOf(cfg, row, r.field))] else [])
  {
    if r.lo.Valid? {
      var p, column := Name(acc.index), cfg.fields[r.field].column;
      BoundsMean(column, p, r.lo.value, row);
      MeansSingle(acc, AtLeast(column, p), One(r.lo.value), row, vs);
      acc' := Push(acc, Single(AtLeast(column, p), p, One(r.lo.value)), 1);
    } else {
      acc' := acc;
      assert vs + [] == vs;
    }
  }

  lemma HiMeans(cfg: EntityConfig, r: RangeFilter, acc: Acc, row: Record, vs: seq<bool>) returns (acc': Acc)
    requires Means(acc, row, vs) && r.field in cfg.fields
    ensures acc' == if r.hi.Valid? then
                      Push(acc, Single(AtMost(cfg.fields[r.field].column, Name(acc.index)), Name(acc.index),
                                       One(r.hi.value)), 1)
                    else acc
    ensures Means(acc', row, vs + if r.hi.Valid? then [ToOk(r.hi, ColumnOf(cfg, row, r.field))] else [])
  {
    if r.hi.Valid? {
      var p, column := Name(acc.index), cfg.fields[r.field].column;
      BoundsMean(column, p, r.hi.value, row);
      MeansSingle(acc, AtMost(column, p), One(r.hi.value), row, vs);
      acc' := Push(acc, Single(AtMost(column, p), p, One(r.hi.value)), 1);
    } else {
      acc' := acc;
      assert vs + [] == vs;
    }
  }

  lemma RangeMeans(cfg: EntityConfig, kind: FieldType, r: RangeFilter, acc: Acc, row: Record, vs: seq<bool>)
    requires Means(acc, row, vs) && AddRange(cfg, kind, r, acc).Ok?
    ensures Means(AddRange(cfg, kind, r, acc).value, row, vs + RangePieces(cfg, r, row))
  {
    var v := ColumnOf(cfg, row, r.field);
    var lo := if r.lo.Valid? then [FromOk(r.lo, v)] else [];
    var hi := if r.hi.Valid? then [ToOk(r.hi, v)] else [];
    var acc1 := LoMeans(cfg, r, acc, row, vs);
    var acc2 := HiMeans(cfg, r, acc1, row, vs + lo);
    assert vs + lo + hi == vs + RangePieces(cfg, r, row);
  }

  lemma {:induction false} RangesMean(cfg: EntityConfig, kind: FieldType, rs: seq<RangeFilter>, acc: Acc, row: Record,
                                      vs: seq<bool>)
    requires Means(acc, row, vs) && AddRanges(cfg, kind, rs, acc).Ok?
    ensures Means(AddRanges(cfg, kind, rs, acc).value, row, vs + RangesPieces(cfg, rs, row))
    decreases |rs|
  {
    if rs == [] {
      assert vs + [] == vs;
    } else {
      var next := FirstRangeMeans(cfg, kind, rs, acc, row, vs);
      RangesMean(cfg, kind, rs[1..], next, row, vs + RangePieces(cfg, rs[0], row));
      Regroup(vs, RangePieces(cfg, rs[0], row), RangesPieces(cfg, rs[1..], row));
    }
  }

  lemma Regroup(a: seq<bool>, b: seq<bool>, c: seq<bool>)
    ensures (a + b) + c == a + (b + c)
  {
  }

  lemma FirstRangeMeans(cfg: EntityConfig, kind: FieldType, rs: seq<RangeFilter>, acc: Acc, row: Record, vs: seq<bool>)
    returns (next: Acc)
    requires Means(acc, row, vs) && rs != [] && AddRanges(cfg, kind, rs, acc).Ok?
    ensures Means(next, row, vs + RangePieces(cfg, rs[0], row))
    ensures AddRanges(cfg, kind, rs, acc) == AddRanges(cfg, kind, rs[1..], next)
  {
    RangeMeans(cfg, kind, rs[0], acc, row, vs);
    next := AddRange(cfg, kind, rs[0], acc).value;
  }

  lemma AddressPiecesCons(cfg: EntityConfig, fs: seq<AddressFilter>, row: Record, vs: seq<bool>)
    requires fs != []
    ensures vs + AddressPieces(cfg, fs, row) == vs + [AddressOk(cfg, fs[0], row)] + AddressPieces(cfg, fs[1..], row)
  {
  }

  lemma {:induction false} AddressesMean(cfg: EntityConfig, fs: seq<AddressFilter>, acc: Acc, row: Record,
                                         vs: seq<bool>)
    requires Means(acc, row, vs) && AddAddresses(cfg, fs, acc).Ok?
    ensures Means(AddAddresses(cfg, fs, acc).value, row, vs + AddressPieces(cfg, fs, row))
    decreases |fs|
  {
    if fs == [] {
      assert vs + AddressPieces(cfg, fs, row) == vs;
    } else {
      var next := FirstAddressMeans(cfg, fs, acc, row, vs);
      AddressPiecesCons(cfg, fs, row, vs);
      AddressesMean(cfg, fs[1..], next, row, vs + [AddressOk(cfg, fs[0], row)]);
    }
  }

  lemma FirstAddressMeans(cfg: EntityConfig, fs: seq<AddressFilter>, acc: Acc, row: Record, vs: seq<bool>)
    returns (next: Acc)
    requires Means(acc, row, vs) && fs != [] && AddAddresses(cfg, fs, acc).Ok?
    ensures Means(next, row, vs + [AddressOk(cfg, fs[0], row)])
    ensures AddAddresses(cfg, fs, acc) == AddAddresses(cfg, fs[1..], next)
  {
    var words := Normalized(fs[0].addresses);
    var sql := LowerIn(cfg.fields[fs[0].field].column, Name(acc.index));
    MeansSingle(acc, sql, Many(words), row, vs);
    WordsMean(cfg, fs[0], row);
    next := Push(acc, Single(sql, Name(acc.index), Many(words)), 1);
  }

  lemma WordsMean(cfg: EntityConfig, f: AddressFilter, row: Record)
    ensures
      var v := ColumnOf(cfg, row, f.field);
      v.Word? && Lower(v.s) in Normalized(f.addresses) <==> AddressOk(cfg, f, row)
  {
    var v := ColumnOf(cfg, row, f.field);
    var words := Normalized(f.addresses);
    if v.Word? {
      if Lower(v.s) in words {
        var i :| 0 <= i < |words| && words[i] == Lower(v.s);
        assert Lower(v.s) == Lower(Trim(f.addresses[i]));
      }
      if AddressOk(cfg, f, row) {
        var i :| 0 <= i < |f.addresses| && Lower(v.s) == Lower(Trim(f.addresses[i]));
        assert words[i] == Lower(v.s);
      }
    }
  }

  lemma BooleanPiecesCons(cfg: EntityConfig, fs: seq<BooleanFilter>, row: Record, vs: seq<bool>)
    requires fs != []
    ensures vs + BooleanPieces(cfg, fs, row) == vs + [BooleanOk(cfg, fs[0], row)] + BooleanPieces(cfg, fs[1..], row)
  {
  }

  lemma {:induction false} BooleansMean(cfg: EntityConfig, fs: seq<BooleanFilter>, acc: Acc, row: Record,
                                        vs: seq<bool>)
    requires Means(acc, row, vs) && AddBooleans(cfg, fs, acc).Ok?
    ensures Means(AddBooleans(cfg, fs, acc).value, row, vs + BooleanPieces(cfg, fs, row))
    decreases |fs|
  {
    if fs == [] {
      assert vs + BooleanPieces(cfg, fs, row) == vs;
    } else {
      var next := FirstBooleanMeans(cfg, fs, acc, row, vs);
      BooleanPiecesCons(cfg, fs, row, vs);
      BooleansMean(cfg, fs[1..], next, row, vs + [BooleanOk(cfg, fs[0], row)]);
    }
  }

  lemma FirstBooleanMeans(cfg: EntityConfig, fs: seq<BooleanFilter>, acc: Acc, row: Record, vs: seq<bool>)
    returns (next: Acc)
    requires Means(acc, row, vs) && fs != [] && AddBooleans(cfg, fs, acc).Ok?
    ensures Means(next, row, vs + [BooleanOk(cfg, fs[0], row)])
    ensures AddBooleans(cfg, fs, acc) == AddBooleans(cfg, fs[1..], next)
  {
    var b := ParseBoolean(fs[0].value).value;
    var column := cfg.fields[fs[0].field].column;
    var sql := Equals(column, Name(acc.index));
    MeansSingle(acc, sql, One(Bool(b)), row, vs);
    BoundsMean(column, Name(acc.index), Bool(b), row);
    next := Push(acc, Single(sql, Name(acc.index), One(Bool(b))), 1);
  }

  /** `env` gives the names of `part` the same values. */
  predicate Includes(env: Env, part: Env) {
    forall p :: p in part ==> p in env && env[p] == part[p]
  }

  /** Parameter number `n` is bound to the value of its condition. */
  lemma TestBound(cs: seq<Condition>, i: nat, n: nat, env: Env)
    requires Includes(env, TestParams(cs, i)) && i <= n < i + |cs|
    ensures Bound(env, Name(n)) == cs[n - i].value
  {
    TestValue(cs, i, n);
  }

  lemma BoundTestsMean(cs: seq<Condition>, tests: seq<Test>, env: Env, row: Record)
    requires |tests| == |cs|
    requires forall k :: 0 <= k < |cs| ==> tests[k].column == cs[k].column && tests[k].op == cs[k].op
    requires forall k :: 0 <= k < |cs| ==> Bound(env, tests[k].param) == cs[k].value
    ensures EvalGroup(tests, env, row) <==> MeetsAll(cs, row)
  {
  }

  lemma TestsMean(cs: seq<Condition>, i: nat, env: Env, row: Record)
    requires Includes(env, TestParams(cs, i))
    ensures EvalGroup(Tests(cs, i), env, row) <==> MeetsAll(cs, row)
  {
    var tests := Tests(cs, i);
    forall k | 0 <= k < |cs| ensures Bound(env, tests[k].param) == cs[k].value {
      TestBound(cs, i, i + k, env);
    }
    BoundTestsMean(cs, tests, env, row);
  }

  lemma ParameterNumber(cs: seq<Condition>, i: nat, p: string) returns (n: nat)
    requires p in TestParams(cs, i)
    ensures i <= n < i + |cs| && p == Name(n)
  {
    TestKeys(cs, i);
    n :| i <= n < i + |cs| && Name(n) == p;
  }

  lemma PartValue(a: seq<Condition>, b: seq<Condition>, i: nat, n: nat)
    requires i <= n < i + |a| + |b|
    ensures Name(n) in TestParams(a + b, i)
    ensures TestParams(a + b, i)[Name(n)] == One(if n - i < |a| then a[n - i].value else b[n - i - |a|].value)
  {
    TestValue(a + b, i, n);
  }

  /** The parameters of the first and of the last conditions, at their places, are parameters of all. */
  lemma FirstIncluded(a: seq<Condition>, b: seq<Condition>, i: nat)
    ensures Includes(TestParams(a + b, i), TestParams(a, i))
  {
    forall p | p in TestParams(a, i)
      ensures p in TestParams(a + b, i) && TestParams(a + b, i)[p] == TestParams(a, i)[p]
    {
      var n := ParameterNumber(a, i, p);
      PartValue(a, b, i, n);
      TestValue(a, i, n);
    }
  }

  lemma LastIncluded(a: seq<Condition>, b: seq<Condition>, i: nat, j: nat)
    requires j == i + |a|
    ensures Includes(TestParams(a + b, i), TestParams(b, j))
  {
    forall p | p in TestParams(b, j)
      ensures p in TestParams(a + b, i) && TestParams(a + b, i)[p] == TestParams(b, j)[p]
    {
      var n := ParameterNumber(b, j, p);
      PartValue(a, b, i, n);
      TestValue(b, j, n);
    }
  }

  lemma IncludesTransitive(env: Env, all: Env, part: Env)
    requires Includes(env, all) && Includes(all, part)
    ensures Includes(env, part)
  {
  }

  lemma {:induction false} GroupsLength(css: seq<seq<Condition>>, i: nat)
    ensures |Groups(css, i)| == |css|
    decreases |css|
  {
    if css != [] {
      GroupsLength(css[1..], i + |css[0]|);
    }
  }

  lemma RestReach(css: seq<seq<Condition>>, i: nat, env: Env)
    requires css != [] && Includes(env, TestParams(Flat(css), i))
    ensures Includes(env, TestParams(Flat(css[1..]), i + |css[0]|))
  {
    LastIncluded(css[0], Flat(css[1..]), i, i + |css[0]|);
    IncludesTransitive(env, TestParams(Flat(css), i), TestParams(Flat(css[1..]), i + |css[0]|));
  }

  lemma FirstGroupMeans(css: seq<seq<Condition>>, i: nat, env: Env, row: Record)
    requires css != [] && Includes(env, TestParams(Flat(css), i))
    ensures EvalGroup(Tests(css[0], i), env, row) == MeetsAll(css[0], row)
  {
    FirstIncluded(css[0], Flat(css[1..]), i);
    IncludesTransitive(env, TestParams(Flat(css), i), TestParams(css[0], i));
    TestsMean(css[0], i, env, row);
  }

  /** Group number `g` of the status block decides the conditions of status number `g`, under the block's parameters. */
  lemma {:induction false} GroupMeans(css: seq<seq<Condition>>, i: nat, g: nat, env: Env, row: Record)
    requires g < |css| == |Groups(css, i)| && Includes(env, TestParams(Flat(css), i))
    ensures EvalGroup(Groups(css, i)[g], env, row) == MeetsAll(css[g], row)
    decreases |css|
  {
    if g == 0 {
      FirstGroupMeans(css, i, env, row);
    } else {
      RestReach(css, i, env);
      GroupsLength(css[1..], i + |css[0]|);
      GroupMeans(css[1..], i + |css[0]|, g - 1, env, row);
    }
  }

  lemma BlockMeans(cfg: EntityConfig, statuses: seq<string>, i: nat, row: Record)
    ensures
      var css := ConditionLists(cfg, statuses);
      Eval(AnyGroup(Groups(css, i)), TestParams(Flat(css), i), row) == AnyStatus(cfg, statuses, row)
  {
    var css := ConditionLists(cfg, statuses);
    GroupsLength(css, i);
    forall g | 0 <= g < |css|
      ensures EvalGroup(Groups(css, i)[g], TestParams(Flat(css), i), row) == MeetsAll(css[g], row)
    {
      GroupMeans(css, i, g, TestParams(Flat(css), i), row);
    }
    assert forall g :: 0 <= g < |css| ==> MeetsAll(css[g], row) == HasStatus(cfg, statuses[g], row);
  }

  lemma StatusesMean(cfg: EntityConfig, statuses: seq<string>, acc: Acc, row: Record, vs: seq<bool>)
    requires Means(acc, row, vs) && AddStatuses(cfg, statuses, acc).Ok?
    ensures Means(AddStatuses(cfg, statuses, acc).value, row,
                  vs + if statuses == [] then [] else [AnyStatus(cfg, statuses, row)])
  {
    if statuses == [] {
      assert vs + [] == vs;
    } else {
      var css := ConditionLists(cfg, statuses);
      BlockOwns(css, acc.index);
      BlockMeans(cfg, statuses, acc.index, row);
      MeansPush(acc, Clause(AnyGroup(Groups(css, acc.index)), TestParams(Flat(css), acc.index)), |Flat(css)|, row, vs);
    }
  }

  lemma CompiledMeans(cfg: EntityConfig, req: Request, row: Record)
    requires CompileAll(cfg, req).Ok?
    ensures Means(CompileAll(cfg, req).value, row, Pieces(cfg, req, row))
  {
    var a0 := Acc([], 0);
    assert Means(a0, row, []);
    RangesMean(cfg, DateField, req.dateRanges, a0, row, []);
    var a1 := AddRanges(cfg, DateField, req.dateRanges, a0).value;
    var v1 := RangesPieces(cfg, req.dateRanges, row);
    assert [] + v1 == v1;
    StatusesMean(cfg, req.statuses, a1, row, v1);
    var a2 := AddStatuses(cfg, req.statuses, a1).value;
    var v2 := v1 + if req.statuses == [] then [] else [AnyStatus(cfg, req.statuses, row)];
    RangesMean(cfg, NumberField, req.numericRanges, a2, row, v2);
    var a3 := AddRanges(cfg, NumberField, req.numericRanges, a2).value;
    var v3 := v2 + RangesPieces(cfg, req.numericRanges, row);
    AddressesMean(cfg, req.addresses, a3, row, v3);
    var a4 := AddAddresses(cfg, req.addresses, a3).value;
    var v4 := v3 + AddressPieces(cfg, req.addresses, row);
    BooleansMean(cfg, req.booleans, a4, row, v4);
  }

  // --------------------------------------------------------------------- the theorems

  predicate InRange(cfg: EntityConfig, r: RangeFilter, row: Record) {
    FromOk(r.lo, ColumnOf(cfg, row, r.field)) && ToOk(r.hi, ColumnOf(cfg, row, r.field))
  }

  /**
   The row is in every requested range and address set, has every boolean, and one of the
   statuses if any are given.
   */
  predicate Satisfies(cfg: EntityConfig, req: Request, row: Record) {
    && (forall i :: 0 <= i < |req.dateRanges| ==> InRange(cfg, req.dateRanges[i], row))
    && (req.statuses != [] ==> AnyStatus(cfg, req.statuses, row))
    && (forall i :: 0 <= i < |req.numericRanges| ==> InRange(cfg, req.numericRanges[i], row))
    && (forall i :: 0 <= i < |req.addresses| ==> AddressOk(cfg, req.addresses[i], row))
    && (forall i :: 0 <= i < |req.booleans| ==> BooleanOk(cfg, req.booleans[i], row))
  }

  predicate AllTrue(vs: seq<bool>) {
    forall i :: 0 <= i < |vs| ==> vs[i]
  }

  lemma AllTrueAppend(a: seq<bool>, b: seq<bool>)
    ensures AllTrue(a + b) <==> AllTrue(a) && AllTrue(b)
  {
    if AllTrue(a + b) {
      assert forall i :: 0 <= i < |a| ==> a[i] == (a + b)[i];
      assert forall i :: 0 <= i < |b| ==> b[i] == (a + b)[|a| + i];
    }
  }

  lemma {:induction false} RangesAllTrue(cfg: EntityConfig, rs: seq<RangeFilter>, row: Record)
    ensures AllTrue(RangesPieces(cfg, rs, row)) <==> forall i :: 0 <= i < |rs| ==> InRange(cfg, rs[i], row)
    decreases |rs|
  {
    if rs != [] {
      var rest := rs[1..];
      RangesAllTrue(cfg, rest, row);
      AllTrueAppend(RangePieces(cfg, rs[0], row), RangesPieces(cfg, rest, row));
      RangeAllTrue(cfg, rs[0], row);
      assert (forall i :: 0 <= i < |rs| ==> InRange(cfg, rs[i], row))
             <==> InRange(cfg, rs[0], row) && forall i :: 0 <= i < |rest| ==> InRange(cfg, rest[i], row) by {
        assert forall i :: 0 <= i < |rest| ==> rest[i] == rs[i + 1];
        assert forall i :: 1 <= i < |rs| ==> rs[i] == rest[i - 1];
      }
    }
  }

  lemma RangeAllTrue(cfg: EntityConfig, r: RangeFilter, row: Record)
    ensures AllTrue(RangePieces(cfg, r, row)) <==> InRange(cfg, r, row)
  {
    var v := ColumnOf(cfg, row, r.field);
    AllTrueAppend(if r.lo.Valid? then [FromOk(r.lo, v)] else [], if r.hi.Valid? then [ToOk(r.hi, v)] else []);
    assert AllTrue([FromOk(r.lo, v)]) <==> FromOk(r.lo, v) by {
      assert [FromOk(r.lo, v)][0] == FromOk(r.lo, v);
    }
    assert AllTrue([ToOk(r.hi, v)]) <==> ToOk(r.hi, v) by {
      assert [ToOk(r.hi, v)][0] == ToOk(r.hi, v);
    }
  }

  lemma PiecesAllTrue(cfg: EntityConfig, req: Request, row: Record)
    ensures AllTrue(Pieces(cfg, req, row)) <==> Satisfies(cfg, req, row)
  {
    var d, n := RangesPieces(cfg, req.dateRanges, row), RangesPieces(cfg, req.numericRanges, row);
    var s := if req.statuses == [] then [] else [AnyStatus(cfg, req.statuses, row)];
    var a, b := AddressPieces(cfg, req.addresses, row), BooleanPieces(cfg, req.booleans, row);
    RangesAllTrue(cfg, req.dateRanges, row);
    RangesAllTrue(cfg, req.numericRanges, row);
    AllTrueAppend(d, s);
    AllTrueAppend(d + s, n);
    AllTrueAppend(d + s + n, a);
    AllTrueAppend(d + s + n + a, b);
    assert AllTrue(s) <==> (req.statuses != [] ==> AnyStatus(cfg, req.statuses, row)) by {
      if req.statuses != [] {
        assert s[0] == AnyStatus(cfg, req.statuses, row);
      }
    }
    assert forall i :: 0 <= i < |a| ==> a[i] == AddressOk(cfg, req.addresses[i], row);
    assert forall i :: 0 <= i < |b| ==> b[i] == BooleanOk(cfg, req.booleans[i], row);
  }

  /** In any plan, each clause has the verdict of its requirement, under the merged environment. */
  lemma PlanVerdicts(cfg: EntityConfig, req: Request, row: Record)
    requires Compile(cfg, req).Ok?
    ensures
      var plan := Compile(cfg, req).value;
      && |plan.clauses| == |Pieces(cfg, req, row)|
      && forall i :: 0 <= i < |plan.clauses| ==>
           Eval(plan.clauses[i].sql, Merged(plan.clauses), row) == Pieces(cfg, req, row)[i]
  {
    var plan := Compile(cfg, req).value;
    var acc := CompileAll(cfg, req).value;
    CompiledMeans(cfg, req, row);
    forall i | 0 <= i < |plan.clauses|
      ensures Eval(plan.clauses[i].sql, Merged(plan.clauses), row) == Pieces(cfg, req, row)[i]
    {
      OneEnvironmentIsEnough(plan.clauses, acc.index, i, row);
      assert Verdicts(acc.clauses, row)[i] == Pieces(cfg, req, row)[i];
    }
  }

  lemma {:induction false} OwnedBelow(clauses: seq<Clause>, index: nat, i: nat)
    requires Numbered(clauses, index) && i < |clauses|
    ensures clauses[i].parameters.Keys <= Names(0, index)
    decreases |clauses|
  {
    var from: nat :| LastFrom(clauses, from, index);
    NamesSplit(0, from, index);
    if i < |clauses| - 1 {
      OwnedBelow(clauses[..|clauses| - 1], from, i);
    }
  }

  lemma {:induction false} NumberedApart(clauses: seq<Clause>, index: nat, i: nat, j: nat)
    requires Numbered(clauses, index) && i < j < |clauses|
    ensures clauses[i].parameters.Keys !! clauses[j].parameters.Keys
    decreases |clauses|
  {
    var init := clauses[..|clauses| - 1];
    var from: nat :| LastFrom(clauses, from, index);
    if j < |init| {
      NumberedApart(init, from, i, j);
    } else {
      OwnedBelow(init, from, i);
      NamesDisjoint(0, from, from, index);
    }
  }

  /** No parameter name is used by two clauses of a plan, the status block included. */
  lemma PlanNamesAreDistinct(cfg: EntityConfig, req: Request, i: nat, j: nat)
    requires Compile(cfg, req).Ok? && i < j < |Compile(cfg, req).value.clauses|
    ensures Compile(cfg, req).value.clauses[i].parameters.Keys !! Compile(cfg, req).value.clauses[j].parameters.Keys
  {
    CompiledMeans(cfg, req, map[]);
    NumberedApart(CompileAll(cfg, req).value.clauses, CompileAll(cfg, req).value.index, i, j);
  }

  /** An AND plan accepts a row exactly when the row satisfies the request. */
  lemma AndPlanMeansRequest(cfg: EntityConfig, req: Request, row: Record)
    requires req.combination == And && Compile(cfg, req).Ok?
    ensures Accepts(Compile(cfg, req).value, row) <==> Satisfies(cfg, req, row)
  {
    PlanVerdicts(cfg, req, row);
    PiecesAllTrue(cfg, req, row);
  }

  lemma AcceptsOr(plan: Plan, row: Record, vs: seq<bool>)
    requires plan.combination == Or && |vs| == |plan.clauses|
    requires forall i :: 0 <= i < |vs| ==> Eval(plan.clauses[i].sql, Merged(plan.clauses), row) == vs[i]
    ensures Accepts(plan, row) <==> vs == [] || exists i :: 0 <= i < |vs| && vs[i]
  {
  }

  /**
   An OR plan accepts a row exactly when it meets at least one single requirement or there
   are none; the two bounds of a range count as separate requirements.
   */
  lemma OrPlanMeansAnyRequirement(cfg: EntityConfig, req: Request, row: Record)
    requires req.combination == Or && Compile(cfg, req).Ok?
    ensures Accepts(Compile(cfg, req).value, row) <==>
            Pieces(cfg, req, row) == [] || exists i :: 0 <= i < |Pieces(cfg, req, row)| && Pieces(cfg, req, row)[i]
  {
    PlanVerdicts(cfg, req, row);
    AcceptsOr(Compile(cfg, req).value, row, Pieces(cfg, req, row));
  }

  /**
   The sort of a plan names a column of the configuration if and only if the requested
   field is configured; an inherited name is accepted without one.
   */
  lemma SortColumnIff(cfg: EntityConfig, req: Request)
    requires Compile(cfg, req).Ok? && req.sort.Some?
    ensures
      var sort := Compile(cfg, req).value.sort;
      && sort.Some? && (sort.value.0.Some? <==> req.sort.value.0 in cfg.fields)
      && (sort.value.0.None? ==> req.sort.value.0 in cfg.inherited)
  {
  }
}
