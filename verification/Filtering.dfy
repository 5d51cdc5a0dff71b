/**
 Compilation of a filter request into parameterised SQL clauses. Clauses are kept as
 syntax trees; evaluating one means asking whether the database finds it TRUE for a row,
 so a comparison with NULL counts as not satisfied.
 */
module Filtering {
  import opened Text

  // ------------------------------------------------------------------ vocabulary

  datatype Value = Time(ms: int) | Number(n: real) | Word(s: string) | Bool(b: bool) | Null

  datatype FieldType = AddressField | BooleanField | DateField | NumberField

  datatype FieldConfig = FieldConfig(column: string, kind: FieldType, sortable: bool)

  datatype Operator = Equal | NotEqual | Is | IsNot

  datatype Condition = Condition(column: string, op: Operator, value: Value)

  /** `inherited` are the names that the two plain objects inherit. */
  datatype EntityConfig = EntityConfig(fields: map<string, FieldConfig>, statuses: map<string, seq<Condition>>,
                                       inherited: set<string>)

  /** A bound as the caller gave it: absent, parsed, or not parsable. */
  datatype Input = Absent | Valid(value: Value) | Invalid

  datatype RangeFilter = RangeFilter(field: string, lo: Input, hi: Input)

  datatype AddressFilter = AddressFilter(field: string, addresses: seq<string>)

  /** A boolean is given as such or as text. */
  datatype BoolInput = Flag(b: bool) | Spelled(s: string)

  datatype BooleanFilter = BooleanFilter(field: string, value: BoolInput)

  datatype Combination = And | Or | Unsupported

  datatype Request = Request(
    dateRanges: seq<RangeFilter>,
    statuses: seq<string>,
    numericRanges: seq<RangeFilter>,
    addresses: seq<AddressFilter>,
    booleans: seq<BooleanFilter>,
    combination: Combination,
    sort: Option<(string, Option<string>)>)

  datatype Error =
    | BadCombination | UnknownField | UnsupportedField | WrongType | InvalidBound | EmptyRange
    | UnsupportedStatus | NotAList | BadAddress | BadBoolean | UnsupportedSort | BadDirection

  datatype Result<+T> = Ok(value: T) | Err(error: Error)

  // ---------------------------------------------------------------------- clauses

  datatype Param = One(value: Value) | Many(words: seq<string>)

  datatype Test = Test(column: string, op: Operator, param: string)

  datatype Sql =
    | AtLeast(column: string, param: string)
    | AtMost(column: string, param: string)
    | LowerIn(column: string, param: string)
    | Equals(column: string, param: string)
    /** OR over groups, AND inside a group. */
    | AnyGroup(groups: seq<seq<Test>>)

  type Env = map<string, Param>

  datatype Clause = Clause(sql: Sql, parameters: Env)

  /** The sort column is None when the field is an inherited name, which has no column. */
  datatype Plan = Plan(clauses: seq<Clause>, combination: Combination, sort: Option<(Option<string>, string)>)

  /** The name of parameter number `i`. */
  function Name(i: nat): string {
    "filter_" + Show(i)
  }

  lemma NameInjective(i: nat, j: nat)
    requires Name(i) == Name(j)
    ensures i == j
  {
    assert Name(i)[7..] == Show(i) && Name(j)[7..] == Show(j);
    ShowInjective(i, j);
  }

  // ---------------------------------------------------------------- text handling

  predicate IsSpace(c: char) {
    c == ' ' || c == '\t' || c == '\n' || c == '\r'
  }

  function TrimLeft(s: string): string {
    if s != "" && IsSpace(s[0]) then TrimLeft(s[1..]) else s
  }

  function TrimRight(s: string): string {
    if s != "" && IsSpace(s[|s| - 1]) then TrimRight(s[..|s| - 1]) else s
  }

  function Trim(s: string): string {
    TrimRight(TrimLeft(s))
  }

  function LowerChar(c: char): char {
    if 'A' <= c <= 'Z' then c - 'A' + 'a' else c
  }

  function Lower(s: string): string {
    seq(|s|, i requires 0 <= i < |s| => LowerChar(s[i]))
  }

  function Normalized(addresses: seq<string>): seq<string> {
    seq(|addresses|, i requires 0 <= i < |addresses| => Lower(Trim(addresses[i])))
  }

  function ParseBoolean(v: BoolInput): Option<bool> {
    match v
    case Flag(b) => Some(b)
    case Spelled(s) =>
      if Lower(Trim(s)) == "true" then Some(true) else if Lower(Trim(s)) == "false" then Some(false) else None
  }

  // ------------------------------------------------------------------ compilation

  /** The clauses pushed so far and the next free parameter number. */
  datatype Acc = Acc(clauses: seq<Clause>, index: nat)

  function Push(acc: Acc, c: Clause, used: nat): Acc {
    Acc(acc.clauses + [c], acc.index + used)
  }

  function Single(sql: Sql, param: string, value: Param): Clause {
    Clause(sql, map[param := value])
  }

  function GetField(cfg: EntityConfig, field: string, kind: FieldType): Result<FieldConfig> {
    if field !in cfg.fields then Err(UnsupportedField)
    else if cfg.fields[field].kind != kind then Err(WrongType)
    else Ok(cfg.fields[field])
  }

  /** `a > b` as JavaScript compares two dates or two numbers. */
  predicate Greater(a: Value, b: Value) {
    match (a, b)
    case (Time(x), Time(y)) => x > y
    case (Number(x), Number(y)) => x > y
    case _ => false
  }

  function AddRange(cfg: EntityConfig, kind: FieldType, r: RangeFilter, acc: Acc): Result<Acc> {
    var field := GetField(cfg, r.field, kind);
    if field.Err? then Err(field.error)
    else if r.lo.Invalid? || r.hi.Invalid? then Err(InvalidBound)
    else if r.lo.Valid? && r.hi.Valid? && Greater(r.lo.value, r.hi.value) then Err(EmptyRange)
    else
      var withLo := if r.lo.Valid?
        then Push(acc, Single(AtLeast(field.value.column, Name(acc.index)), Name(acc.index), One(r.lo.value)), 1)
        else acc;
      Ok(if r.hi.Valid?
         then Push(withLo, Single(AtMost(field.value.column, Name(withLo.index)), Name(withLo.index),
                                  One(r.hi.value)), 1)
         else withLo)
  }

  function AddRanges(cfg: EntityConfig, kind: FieldType, rs: seq<RangeFilter>, acc: Acc): Result<Acc>
    decreases |rs|
  {
    if rs == [] then Ok(acc)
    else
      var next := AddRange(cfg, kind, rs[0], acc);
      if next.Err? then next else AddRanges(cfg, kind, rs[1..], next.value)
  }

  /** The tests of one status, numbered from `i`. */
  function Tests(cs: seq<Condition>, i: nat): seq<Test> {
    seq(|cs|, k requires 0 <= k < |cs| => Test(cs[k].column, cs[k].op, Name(i + k)))
  }

  function TestParams(cs: seq<Condition>, i: nat): Env {
    if cs == [] then map[] else map[Name(i) := One(cs[0].value)] + TestParams(cs[1..], i + 1)
  }

  function Conditions(cfg: EntityConfig, status: string): seq<Condition> {
    if status in cfg.statuses then cfg.statuses[status] else []
  }

  function ConditionLists(cfg: EntityConfig, statuses: seq<string>): seq<seq<Condition>> {
    seq(|statuses|, k requires 0 <= k < |statuses| => Conditions(cfg, statuses[k]))
  }

  /** All conditions of a status block, in the order in which they get their parameters. */
  function Flat(css: seq<seq<Condition>>): seq<Condition> {
    if css == [] then [] else css[0] + Flat(css[1..])
  }

  predicate StatusesKnown(cfg: EntityConfig, statuses: seq<string>) {
    forall i :: 0 <= i < |statuses| ==> statuses[i] in cfg.statuses
  }

  function Groups(css: seq<seq<Condition>>, i: nat): seq<seq<Test>> {
    if css == [] then [] else [Tests(css[0], i)] + Groups(css[1..], i + |css[0]|)
  }

  /** An unknown status is rejected; an inherited name is no list of conditions and fails at run time. */
  function FirstUnknown(cfg: EntityConfig, statuses: seq<string>): Error
    requires !StatusesKnown(cfg, statuses)
  {
    if statuses[0] in cfg.statuses then FirstUnknown(cfg, statuses[1..])
    else if statuses[0] in cfg.inherited then NotAList else UnsupportedStatus
  }

  function AddStatuses(cfg: EntityConfig, statuses: seq<string>, acc: Acc): Result<Acc> {
    if statuses == [] then Ok(acc)
    else if !StatusesKnown(cfg, statuses) then Err(FirstUnknown(cfg, statuses))
    else
      var css := ConditionLists(cfg, statuses);
      Ok(Push(acc, Clause(AnyGroup(Groups(css, acc.index)), TestParams(Flat(css), acc.index)), |Flat(css)|))
  }

  function AddAddresses(cfg: EntityConfig, fs: seq<AddressFilter>, acc: Acc): Result<Acc>
    decreases |fs|
  {
    if fs == [] then Ok(acc)
    else
      var field := GetField(cfg, fs[0].field, AddressField);
      var words := Normalized(fs[0].addresses);
      if field.Err? then Err(field.error)
      else if words == [] || "" in words then Err(BadAddress)
      else AddAddresses(cfg, fs[1..], Push(acc, Single(LowerIn(field.value.column, Name(acc.index)),
                                                       Name(acc.index), Many(words)), 1))
  }

  function AddBooleans(cfg: EntityConfig, fs: seq<BooleanFilter>, acc: Acc): Result<Acc>
    decreases |fs|
  {
    if fs == [] then Ok(acc)
    else
      var field := GetField(cfg, fs[0].field, BooleanField);
      var b := ParseBoolean(fs[0].value);
      if field.Err? then Err(field.error)
      else if b.None? then Err(BadBoolean)
      else AddBooleans(cfg, fs[1..], Push(acc, Single(Equals(field.value.column, Name(acc.index)),
                                                      Name(acc.index), One(Bool(b.value))), 1))
  }

  /** Only own fields can be marked as not sortable, so inherited names pass. */
  function BuildSort(cfg: EntityConfig, sort: Option<(string, Option<string>)>)
    : Result<Option<(Option<string>, string)>>
  {
    if sort.None? then Ok(None)
    else
      var (field, direction) := sort.value;
      var wanted := if direction.Some? then Lower(direction.value) else "desc";
      var column := if field in cfg.fields then Some(cfg.fields[field].column) else None;
      if (if field in cfg.fields then !cfg.fields[field].sortable else field !in cfg.inherited)
      then Err(UnsupportedSort)
      else if wanted == "asc" then Ok(Some((column, "ASC")))
      else if wanted == "desc" then Ok(Some((column, "DESC")))
      else Err(BadDirection)
  }

  predicate FieldsKnown(cfg: EntityConfig, req: Request) {
    && (forall i :: 0 <= i < |req.dateRanges| ==> req.dateRanges[i].field in cfg.fields)
    && (forall i :: 0 <= i < |req.numericRanges| ==> req.numericRanges[i].field in cfg.fields)
    && (forall i :: 0 <= i < |req.addresses| ==> req.addresses[i].field in cfg.fields)
    && (forall i :: 0 <= i < |req.booleans| ==> req.booleans[i].field in cfg.fields)
  }

  function Then(r: Result<Acc>, f: Acc -> Result<Acc>): Result<Acc> {
    if r.Err? then r else f(r.value)
  }

  /** All clauses of a request, in the order in which the code pushes them. */
  function CompileAll(cfg: EntityConfig, req: Request): Result<Acc> {
    var r1 := AddRanges(cfg, DateField, req.dateRanges, Acc([], 0));
    var r2 := Then(r1, (a: Acc) => AddStatuses(cfg, req.statuses, a));
    var r3 := Then(r2, (a: Acc) => AddRanges(cfg, NumberField, req.numericRanges, a));
    var r4 := Then(r3, (a: Acc) => AddAddresses(cfg, req.addresses, a));
    Then(r4, (a: Acc) => AddBooleans(cfg, req.booleans, a))
  }

  function Compile(cfg: EntityConfig, req: Request): Result<Plan> {
    if req.combination.Unsupported? then Err(BadCombination)
    else if !FieldsKnown(cfg, req) then Err(UnknownField)
    else
      var all := CompileAll(cfg, req);
      if all.Err? then Err(all.error)
      else
        var sort := BuildSort(cfg, req.sort);
        if sort.Err? then Err(sort.error) else Ok(Plan(all.value.clauses, req.combination, sort.value))
  }

  // ------------------------------------------------------------------- evaluation

  type Record = map<string, Value>

  function Column(row: Record, c: string): Value {
    if c in row then row[c] else Null
  }

  function Bound(env: Env, p: string): Value {
    if p in env && env[p].One? then env[p].value else Null
  }

  predicate NotNullAndNotGreater(a: Value, b: Value) {
    ((a.Time? && b.Time?) || (a.Number? && b.Number?)) && !Greater(a, b)
  }

  predicate Compare(v: Value, op: Operator, p: Value) {
    match op
    case Equal => v != Null && p != Null && v == p
    case NotEqual => v != Null && p != Null && v != p
    case Is => v == p
    case IsNot => v != p
  }

  predicate EvalGroup(tests: seq<Test>, env: Env, row: Record) {
    forall i :: 0 <= i < |tests| ==> Compare(Column(row, tests[i].column), tests[i].op, Bound(env, tests[i].param))
  }

  predicate Eval(sql: Sql, env: Env, row: Record) {
    match sql
    case AtLeast(c, p) => NotNullAndNotGreater(Bound(env, p), Column(row, c))
    case AtMost(c, p) => NotNullAndNotGreater(Column(row, c), Bound(env, p))
    case LowerIn(c, p) => Column(row, c).Word? && p in env && env[p].Many? && Lower(Column(row, c).s) in env[p].words
    case Equals(c, p) => Compare(Column(row, c), Equal, Bound(env, p))
    case AnyGroup(groups) => exists g :: 0 <= g < |groups| && EvalGroup(groups[g], env, row)
  }

  /** All parameters of a plan in one environment, later clauses overriding earlier ones. */
  function Merged(clauses: seq<Clause>): Env {
    if clauses == [] then map[]
    else Merged(clauses[..|clauses| - 1]) + clauses[|clauses| - 1].parameters
  }

  /** The rows that the query with the plan's conditions returns. */
  predicate Accepts(plan: Plan, row: Record) {
    plan.clauses == [] ||
    if plan.combination == Or
    then exists i :: 0 <= i < |plan.clauses| && Eval(plan.clauses[i].sql, Merged(plan.clauses), row)
    else forall i :: 0 <= i < |plan.clauses| ==> Eval(plan.clauses[i].sql, Merged(plan.clauses), row)
  }

  // ---------------------------------------------------------------- the procedure

  /** `buildFilterPlan`: checks first, then one loop for each kind of filter. */
  method BuildFilterPlan(cfg: EntityConfig, req: Request) returns (r: Result<Plan>)
    ensures r == Compile(cfg, req)
  {
    if req.combination.Unsupported? { return Err(BadCombination); }
    if !FieldsKnown(cfg, req) { return Err(UnknownField); }

    var dates := BuildRanges(cfg, DateField, req.dateRanges, Acc([], 0));
    if dates.Err? { return Err(dates.error); }
    var statuses := AddStatuses(cfg, req.statuses, dates.value);
    if statuses.Err? { return Err(statuses.error); }
    var numbers := BuildRanges(cfg, NumberField, req.numericRanges, statuses.value);
    if numbers.Err? { return Err(numbers.error); }

    var acc := numbers.value;
    var i := 0;
    while i < |req.addresses|
      invariant 0 <= i <= |req.addresses|
      invariant AddAddresses(cfg, req.addresses, numbers.value) == AddAddresses(cfg, req.addresses[i..], acc)
    {
      var field := GetField(cfg, req.addresses[i].field, AddressField);
      if field.Err? { return Err(field.error); }
      var words := Normalized(req.addresses[i].addresses);
      if words == [] || "" in words { return Err(BadAddress); }
      acc := Push(acc, Single(LowerIn(field.value.column, Name(acc.index)), Name(acc.index), Many(words)), 1);
      assert req.addresses[i..][1..] == req.addresses[i + 1..];
      i := i + 1;
    }

    ghost var afterAddresses := acc;
    i := 0;
    while i < |req.booleans|
      invariant 0 <= i <= |req.booleans|
      invariant AddBooleans(cfg, req.booleans, afterAddresses) == AddBooleans(cfg, req.booleans[i..], acc)
    {
      var field := GetField(cfg, req.booleans[i].field, BooleanField);
      if field.Err? { return Err(field.error); }
      var b := ParseBoolean(req.booleans[i].value);
      if b.None? { return Err(BadBoolean); }
      acc := Push(acc, Single(Equals(field.value.column, Name(acc.index)), Name(acc.index), One(Bool(b.value))), 1);
      assert req.booleans[i..][1..] == req.booleans[i + 1..];
      i := i + 1;
    }

    var sort := BuildSort(cfg, req.sort);
    if sort.Err? { return Err(sort.error); }
    return Ok(Plan(acc.clauses, req.combination, sort.value));
  }

  method BuildRanges(cfg: EntityConfig, kind: FieldType, rs: seq<RangeFilter>, start: Acc) returns (r: Result<Acc>)
    ensures r == AddRanges(cfg, kind, rs, start)
  {
    var acc := start;
    var i := 0;
    while i < |rs|
      invariant 0 <= i <= |rs|
      invariant AddRanges(cfg, kind, rs, start) == AddRanges(cfg, kind, rs[i..], acc)
    {
      var field := GetField(cfg, rs[i].field, kind);
      if field.Err? { return Err(field.error); }
      var lo, hi := rs[i].lo, rs[i].hi;
      if lo.Invalid? || hi.Invalid? { return Err(InvalidBound); }
      if lo.Valid? && hi.Valid? && Greater(lo.value, hi.value) { return Err(EmptyRange); }
      if lo.Valid? {
        acc := Push(acc, Single(AtLeast(field.value.column, Name(acc.index)), Name(acc.index), One(lo.value)), 1);
      }
      if hi.Valid? {
        acc := Push(acc, Single(AtMost(field.value.column, Name(acc.index)), Name(acc.index), One(hi.value)), 1);
      }
      assert rs[i..][1..] == rs[i + 1..];
      i := i + 1;
    }
    return Ok(acc);
  }
}
