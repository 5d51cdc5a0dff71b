/** Which filter requests are accepted, how their texts are read, and how they are sorted. */
module FilteringRequests {
  import opened Text
  import opened Filtering
  import opened FilteringTheorems

  // ------------------------------------------------------------------------- texts

  const SPACES := {' ', '\t', '\n', '\r'}

  predicate AllSpaces(s: string) {
    forall i :: 0 <= i < |s| ==> s[i] in SPACES
  }

  lemma {:induction false} TrimLeftIs(s: string) returns (left: string)
    ensures s == left + TrimLeft(s) && AllSpaces(left)
    ensures TrimLeft(s) != "" ==> !IsSpace(TrimLeft(s)[0])
    decreases |s|
  {
    left := "";
    if s != "" && IsSpace(s[0]) {
      var rest := TrimLeftIs(s[1..]);
      left := [s[0]] + rest;
      assert s == [s[0]] + s[1..];
    } else {
      assert s == "" + s;
    }
  }

  lemma {:induction false} TrimRightIs(s: string) returns (right: string)
    ensures s == TrimRight(s) + right && AllSpaces(right)
    ensures TrimRight(s) != "" ==> !IsSpace(TrimRight(s)[|TrimRight(s)| - 1]) && TrimRight(s)[0] == s[0]
    decreases |s|
  {
    right := "";
    if s != "" && IsSpace(s[|s| - 1]) {
      var rest := TrimRightIs(s[..|s| - 1]);
      right := rest + [s[|s| - 1]];
      assert s == s[..|s| - 1] + [s[|s| - 1]];
    } else {
      assert s == s + "";
    }
  }

  /** Trimming takes the white space off both ends and nothing else. */
  lemma TrimIs(s: string) returns (left: string, right: string)
    ensures s == left + Trim(s) + right && AllSpaces(left) && AllSpaces(right)
    ensures Trim(s) != "" ==> Trim(s)[0] !in SPACES && Trim(s)[|Trim(s)| - 1] !in SPACES
  {
    left := TrimLeftIs(s);
    right := TrimRightIs(TrimLeft(s));
  }

  /** Only white space trims to nothing. */
  lemma BlankIff(s: string)
    ensures Lower(Trim(s)) == "" <==> AllSpaces(s)
  {
    var left, right := TrimIs(s);
    assert |Lower(Trim(s))| == |Trim(s)|;
    if Trim(s) != "" {
      assert s[|left|] == Trim(s)[0];
    }
  }

  /** The same character, or the same letter in the other case. */
  predicate SameLetter(a: char, b: char) {
    a == b || ('A' <= a <= 'Z' && b == a - 'A' + 'a') || ('A' <= b <= 'Z' && a == b - 'A' + 'a')
  }

  predicate SameIgnoringCase(a: string, b: string) {
    |a| == |b| && forall i :: 0 <= i < |a| ==> SameLetter(a[i], b[i])
  }

  lemma LowerIff(a: string, b: string)
    ensures Lower(a) == Lower(b) <==> SameIgnoringCase(a, b)
  {
    if Lower(a) == Lower(b) {
      assert |a| == |Lower(a)| == |Lower(b)| == |b|;
      forall i | 0 <= i < |a| ensures SameLetter(a[i], b[i]) {
        assert Lower(a)[i] == Lower(b)[i];
      }
    }
  }

  lemma LowerWords()
    ensures Lower("true") == "true" && Lower("false") == "false" && Lower("asc") == "asc" && Lower("desc") == "desc"
  {
  }

  // ----------------------------------------------------------------------- rejections

  /** The bounds of a range are in order, as far as they can be compared. */
  predicate InOrder(lo: Value, hi: Value) {
    && (lo.Time? && hi.Time? ==> lo.ms <= hi.ms)
    && (lo.Number? && hi.Number? ==> lo.n <= hi.n)
  }

  predicate GoodRange(cfg: EntityConfig, kind: FieldType, r: RangeFilter) {
    && r.field in cfg.fields && cfg.fields[r.field].kind == kind && !r.lo.Invalid? && !r.hi.Invalid?
    && (r.lo.Valid? && r.hi.Valid? ==> InOrder(r.lo.value, r.hi.value))
  }

  predicate GoodAddresses(cfg: EntityConfig, f: AddressFilter) {
    && f.field in cfg.fields && cfg.fields[f.field].kind == AddressField && f.addresses != []
    && forall i :: 0 <= i < |f.addresses| ==> !AllSpaces(f.addresses[i])
  }

  predicate GoodBoolean(cfg: EntityConfig, f: BooleanFilter) {
    && f.field in cfg.fields && cfg.fields[f.field].kind == BooleanField
    && (f.value.Spelled? ==>
          SameIgnoringCase(Trim(f.value.s), "true") || SameIgnoringCase(Trim(f.value.s), "false"))
  }

  predicate GoodSort(cfg: EntityConfig, sort: Option<(string, Option<string>)>) {
    sort.Some? ==>
      var (field, direction) := sort.value;
      && (if field in cfg.fields then cfg.fields[field].sortable else field in cfg.inherited)
      && (direction.Some? ==> SameIgnoringCase(direction.value, "asc") || SameIgnoringCase(direction.value, "desc"))
  }

  /** The request keeps every rule of the compilation. */
  predicate GoodRequest(cfg: EntityConfig, req: Request) {
    && !req.combination.Unsupported?
    && (forall i :: 0 <= i < |req.dateRanges| ==> GoodRange(cfg, DateField, req.dateRanges[i]))
    && (forall i :: 0 <= i < |req.statuses| ==> req.statuses[i] in cfg.statuses)
    && (forall i :: 0 <= i < |req.numericRanges| ==> GoodRange(cfg, NumberField, req.numericRanges[i]))
    && (forall i :: 0 <= i < |req.addresses| ==> GoodAddresses(cfg, req.addresses[i]))
    && (forall i :: 0 <= i < |req.booleans| ==> GoodBoolean(cfg, req.booleans[i]))
    && GoodSort(cfg, req.sort)
  }

  predicate AllRanges(cfg: EntityConfig, kind: FieldType, rs: seq<RangeFilter>) {
    forall i :: 0 <= i < |rs| ==> GoodRange(cfg, kind, rs[i])
  }

  predicate AllAddresses(cfg: EntityConfig, fs: seq<AddressFilter>) {
    forall i :: 0 <= i < |fs| ==> GoodAddresses(cfg, fs[i])
  }

  predicate AllBooleans(cfg: EntityConfig, fs: seq<BooleanFilter>) {
    forall i :: 0 <= i < |fs| ==> GoodBoolean(cfg, fs[i])
  }

  lemma {:induction false} RangesAcceptedIff(cfg: EntityConfig, kind: FieldType, rs: seq<RangeFilter>, acc: Acc)
    ensures AddRanges(cfg, kind, rs, acc).Ok? <==> AllRanges(cfg, kind, rs)
    decreases |rs|
  {
    if rs != [] {
      assert AllRanges(cfg, kind, rs) <==> GoodRange(cfg, kind, rs[0]) && AllRanges(cfg, kind, rs[1..]) by {
        assert forall i :: 1 <= i < |rs| ==> rs[i] == rs[1..][i - 1];
        assert forall i :: 0 <= i < |rs| - 1 ==> rs[1..][i] == rs[i + 1];
      }
      var next := AddRange(cfg, kind, rs[0], acc);
      assert next.Ok? <==> GoodRange(cfg, kind, rs[0]);
      if next.Ok? {
        RangesAcceptedIff(cfg, kind, rs[1..], next.value);
      }
    }
  }

  lemma AddressAcceptedIff(cfg: EntityConfig, f: AddressFilter)
    ensures GoodAddresses(cfg, f) <==>
            GetField(cfg, f.field, AddressField).Ok? && Normalized(f.addresses) != [] && "" !in Normalized(f.addresses)
  {
    var words := Normalized(f.addresses);
    forall i | 0 <= i < |words| ensures words[i] == "" <==> AllSpaces(f.addresses[i]) {
      BlankIff(f.addresses[i]);
    }
  }

  lemma {:induction false} AddressesAcceptedIff(cfg: EntityConfig, fs: seq<AddressFilter>, acc: Acc)
    ensures AddAddresses(cfg, fs, acc).Ok? <==> AllAddresses(cfg, fs)
    decreases |fs|
  {
    if fs != [] {
      assert AllAddresses(cfg, fs) <==> GoodAddresses(cfg, fs[0]) && AllAddresses(cfg, fs[1..]) by {
        assert forall i :: 1 <= i < |fs| ==> fs[i] == fs[1..][i - 1];
        assert forall i :: 0 <= i < |fs| - 1 ==> fs[1..][i] == fs[i + 1];
      }
      AddressAcceptedIff(cfg, fs[0]);
      if GoodAddresses(cfg, fs[0]) {
        var next := FirstAddress(cfg, fs, acc);
        AddressesAcceptedIff(cfg, fs[1..], next);
      }
    }
  }

  lemma FirstAddress(cfg: EntityConfig, fs: seq<AddressFilter>, acc: Acc) returns (next: Acc)
    requires fs != [] && GetField(cfg, fs[0].field, AddressField).Ok?
    requires Normalized(fs[0].addresses) != [] && "" !in Normalized(fs[0].addresses)
    ensures AddAddresses(cfg, fs, acc) == AddAddresses(cfg, fs[1..], next)
  {
    var words := Normalized(fs[0].addresses);
    var column := cfg.fields[fs[0].field].column;
    next := Push(acc, Single(LowerIn(column, Name(acc.index)), Name(acc.index), Many(words)), 1);
  }

  /** A boolean is read as given, or from its text, trimmed and in any case. */
  lemma BooleanIs(v: BoolInput, b: bool)
    ensures
      ParseBoolean(v) == Some(b) <==>
      match v
      case Flag(given) => given == b
      case Spelled(s) => SameIgnoringCase(Trim(s), if b then "true" else "false")
  {
    LowerWords();
    if v.Spelled? {
      LowerIff(Trim(v.s), "true");
      LowerIff(Trim(v.s), "false");
      assert "true"[0] != "false"[0];
    }
  }

  lemma BooleanAcceptedIff(cfg: EntityConfig, f: BooleanFilter)
    ensures GoodBoolean(cfg, f) <==> GetField(cfg, f.field, BooleanField).Ok? && ParseBoolean(f.value).Some?
  {
    BooleanIs(f.value, true);
    BooleanIs(f.value, false);
  }

  lemma {:induction false} BooleansAcceptedIff(cfg: EntityConfig, fs: seq<BooleanFilter>, acc: Acc)
    ensures AddBooleans(cfg, fs, acc).Ok? <==> AllBooleans(cfg, fs)
    decreases |fs|
  {
    if fs != [] {
      assert AllBooleans(cfg, fs) <==> GoodBoolean(cfg, fs[0]) && AllBooleans(cfg, fs[1..]) by {
        assert forall i :: 1 <= i < |fs| ==> fs[i] == fs[1..][i - 1];
        assert forall i :: 0 <= i < |fs| - 1 ==> fs[1..][i] == fs[i + 1];
      }
      BooleanAcceptedIff(cfg, fs[0]);
      if GoodBoolean(cfg, fs[0]) {
        var next := FirstBoolean(cfg, fs, acc);
        BooleansAcceptedIff(cfg, fs[1..], next);
      }
    }
  }

  lemma FirstBoolean(cfg: EntityConfig, fs: seq<BooleanFilter>, acc: Acc) returns (next: Acc)
    requires fs != [] && GetField(cfg, fs[0].field, BooleanField).Ok? && ParseBoolean(fs[0].value).Some?
    ensures AddBooleans(cfg, fs, acc) == AddBooleans(cfg, fs[1..], next)
  {
    next := Push(acc, Single(Equals(cfg.fields[fs[0].field].column, Name(acc.index)), Name(acc.index),
                             One(Bool(ParseBoolean(fs[0].value).value))), 1);
  }

  /** The sort that is asked for is the sort that is made: its column and, in any case, its direction. */
  lemma SortIs(cfg: EntityConfig, sort: Option<(string, Option<string>)>)
    ensures BuildSort(cfg, sort).Ok? <==> GoodSort(cfg, sort)
    ensures BuildSort(cfg, sort).Ok? ==> (BuildSort(cfg, sort).value.Some? <==> sort.Some?)
    ensures sort.Some? && BuildSort(cfg, sort).Ok? ==>
              var (field, direction) := sort.value;
              BuildSort(cfg, sort).value.value
              == (if field in cfg.fields then Some(cfg.fields[field].column) else None,
                  if direction.Some? && SameIgnoringCase(direction.value, "asc") then "ASC" else "DESC")
  {
    LowerWords();
    if sort.Some? && sort.value.1.Some? {
      LowerIff(sort.value.1.value, "asc");
      LowerIff(sort.value.1.value, "desc");
    }
    assert |"asc"| != |"desc"|;
  }

  lemma CompileAllAcceptedIff(cfg: EntityConfig, req: Request)
    ensures CompileAll(cfg, req).Ok? <==>
            && AllRanges(cfg, DateField, req.dateRanges) && StatusesKnown(cfg, req.statuses)
            && AllRanges(cfg, NumberField, req.numericRanges) && AllAddresses(cfg, req.addresses)
            && AllBooleans(cfg, req.booleans)
  {
    var r1 := AddRanges(cfg, DateField, req.dateRanges, Acc([], 0));
    RangesAcceptedIff(cfg, DateField, req.dateRanges, Acc([], 0));
    if r1.Ok? {
      var r2 := AddStatuses(cfg, req.statuses, r1.value);
      if r2.Ok? {
        var r3 := AddRanges(cfg, NumberField, req.numericRanges, r2.value);
        RangesAcceptedIff(cfg, NumberField, req.numericRanges, r2.value);
        if r3.Ok? {
          AddressesAcceptedIff(cfg, req.addresses, r3.value);
          if AddAddresses(cfg, req.addresses, r3.value).Ok? {
            BooleansAcceptedIff(cfg, req.booleans, AddAddresses(cfg, req.addresses, r3.value).value);
          }
        }
      }
    }
  }

  /** A request is compiled if and only if it keeps every rule, whatever it contains. */
  lemma AcceptedIff(cfg: EntityConfig, req: Request)
    ensures Compile(cfg, req).Ok? <==> GoodRequest(cfg, req)
    ensures Compile(cfg, req).Ok? ==>
              Compile(cfg, req).value.combination == req.combination
              && BuildSort(cfg, req.sort) == Ok(Compile(cfg, req).value.sort)
  {
    CompileAllAcceptedIff(cfg, req);
    SortIs(cfg, req.sort);
    if GoodRequest(cfg, req) {
      assert AllRanges(cfg, DateField, req.dateRanges) && AllRanges(cfg, NumberField, req.numericRanges);
      assert AllAddresses(cfg, req.addresses) && AllBooleans(cfg, req.booleans);
    }
  }

  /** Some filter names a field that is not configured. */
  predicate NamesUnknownField(cfg: EntityConfig, req: Request) {
    || (exists r :: r in req.dateRanges && r.field !in cfg.fields)
    || (exists r :: r in req.numericRanges && r.field !in cfg.fields)
    || (exists f :: f in req.addresses && f.field !in cfg.fields)
    || (exists f :: f in req.booleans && f.field !in cfg.fields)
  }

  /** The filters of the request keep the rules, whatever its sort is. */
  predicate GoodFilters(cfg: EntityConfig, req: Request) {
    GoodRequest(cfg, req.(sort := None))
  }

  /** Why a request is rejected, in the order of the checks: the combination, the fields, the filters, the sort. */
  lemma RejectedFor(cfg: EntityConfig, req: Request)
    ensures Compile(cfg, req) == Err(BadCombination) <==> req.combination.Unsupported?
    ensures Compile(cfg, req) == Err(UnknownField) <==> !req.combination.Unsupported? && NamesUnknownField(cfg, req)
    ensures Compile(cfg, req) == Err(UnsupportedSort) <==>
            GoodFilters(cfg, req) && req.sort.Some? && !GoodSort(cfg, Some((req.sort.value.0, None)))
    ensures Compile(cfg, req) == Err(BadDirection) <==>
            GoodFilters(cfg, req) && !GoodSort(cfg, req.sort) && GoodSort(cfg, Some((req.sort.value.0, None)))
  {
    UnknownFieldIff(cfg, req);
    FiltersRejectedFor(cfg, req);
    AcceptedIff(cfg, req.(sort := None));
    SortIs(cfg, req.sort);
    if req.sort.Some? {
      SortIs(cfg, Some((req.sort.value.0, None)));
    }
    assert CompileAll(cfg, req) == CompileAll(cfg, req.(sort := None));
  }

  lemma UnknownFieldIff(cfg: EntityConfig, req: Request)
    ensures FieldsKnown(cfg, req) <==> !NamesUnknownField(cfg, req)
  {
  }

  lemma {:induction false} RangesRejectedFor(cfg: EntityConfig, kind: FieldType, rs: seq<RangeFilter>, acc: Acc)
    ensures
      var r := AddRanges(cfg, kind, rs, acc);
      r.Err? ==> r.error in {UnsupportedField, WrongType, InvalidBound, EmptyRange}
    decreases |rs|
  {
    if rs != [] && AddRange(cfg, kind, rs[0], acc).Ok? {
      RangesRejectedFor(cfg, kind, rs[1..], AddRange(cfg, kind, rs[0], acc).value);
    }
  }

  lemma {:induction false} AddressesRejectedFor(cfg: EntityConfig, fs: seq<AddressFilter>, acc: Acc)
    ensures
      var r := AddAddresses(cfg, fs, acc);
      r.Err? ==> r.error in {UnsupportedField, WrongType, BadAddress}
    decreases |fs|
  {
    if fs != [] {
      AddressAcceptedIff(cfg, fs[0]);
      if GoodAddresses(cfg, fs[0]) {
        var next := FirstAddress(cfg, fs, acc);
        AddressesRejectedFor(cfg, fs[1..], next);
      }
    }
  }

  lemma {:induction false} BooleansRejectedFor(cfg: EntityConfig, fs: seq<BooleanFilter>, acc: Acc)
    ensures
      var r := AddBooleans(cfg, fs, acc);
      r.Err? ==> r.error in {UnsupportedField, WrongType, BadBoolean}
    decreases |fs|
  {
    if fs != [] {
      BooleanAcceptedIff(cfg, fs[0]);
      if GoodBoolean(cfg, fs[0]) {
        var next := FirstBoolean(cfg, fs, acc);
        BooleansRejectedFor(cfg, fs[1..], next);
      }
    }
  }

  lemma {:induction false} StatusesRejectedFor(cfg: EntityConfig, statuses: seq<string>)
    requires !StatusesKnown(cfg, statuses)
    ensures FirstUnknown(cfg, statuses) in {NotAList, UnsupportedStatus}
    decreases |statuses|
  {
    if statuses[0] in cfg.statuses {
      StatusesRejectedFor(cfg, statuses[1..]);
    }
  }

  lemma FiltersRejectedFor(cfg: EntityConfig, req: Request)
    ensures
      var all := CompileAll(cfg, req);
      all.Err? ==> all.error !in {BadCombination, UnknownField, UnsupportedSort, BadDirection}
  {
    var r1 := AddRanges(cfg, DateField, req.dateRanges, Acc([], 0));
    RangesRejectedFor(cfg, DateField, req.dateRanges, Acc([], 0));
    if r1.Ok? {
      if !StatusesKnown(cfg, req.statuses) {
        StatusesRejectedFor(cfg, req.statuses);
      }
      var r2 := AddStatuses(cfg, req.statuses, r1.value);
      if r2.Ok? {
        var r3 := AddRanges(cfg, NumberField, req.numericRanges, r2.value);
        RangesRejectedFor(cfg, NumberField, req.numericRanges, r2.value);
        if r3.Ok? {
          AddressesRejectedFor(cfg, req.addresses, r3.value);
          if AddAddresses(cfg, req.addresses, r3.value).Ok? {
            BooleansRejectedFor(cfg, req.booleans, AddAddresses(cfg, req.addresses, r3.value).value);
          }
        }
      }
    }
  }

  /** Why a single range is rejected. */
  lemma RangeRejectedFor(cfg: EntityConfig, kind: FieldType, r: RangeFilter, acc: Acc)
    requires r.field in cfg.fields
    ensures
      var out := AddRange(cfg, kind, r, acc);
      && (out == Err(WrongType) <==> cfg.fields[r.field].kind != kind)
      && (out == Err(InvalidBound) <==> cfg.fields[r.field].kind == kind && (r.lo.Invalid? || r.hi.Invalid?))
      && (out == Err(EmptyRange) <==> cfg.fields[r.field].kind == kind && r.lo.Valid? && r.hi.Valid?
                                      && !InOrder(r.lo.value, r.hi.value))
  {
  }

  // --------------------------------------------------------- what the filters select

  /** On numbers a range means its bounds; a missing value is in no range that has one. */
  lemma NumbersInRange(cfg: EntityConfig, r: RangeFilter, row: Record)
    requires (r.lo.Valid? ==> r.lo.value.Number?) && (r.hi.Valid? ==> r.hi.value.Number?)
    requires r.lo.Valid? || r.hi.Valid?
    ensures
      InRange(cfg, r, row) <==>
      && r.field in cfg.fields && cfg.fields[r.field].column in row && row[cfg.fields[r.field].column].Number?
      && (r.lo.Valid? ==> r.lo.value.n <= row[cfg.fields[r.field].column].n)
      && (r.hi.Valid? ==> row[cfg.fields[r.field].column].n <= r.hi.value.n)
  {
  }

  /** The same for dates. */
  lemma DatesInRange(cfg: EntityConfig, r: RangeFilter, row: Record)
    requires (r.lo.Valid? ==> r.lo.value.Time?) && (r.hi.Valid? ==> r.hi.value.Time?)
    requires r.lo.Valid? || r.hi.Valid?
    ensures
      InRange(cfg, r, row) <==>
      && r.field in cfg.fields && cfg.fields[r.field].column in row && row[cfg.fields[r.field].column].Time?
      && (r.lo.Valid? ==> r.lo.value.ms <= row[cfg.fields[r.field].column].ms)
      && (r.hi.Valid? ==> row[cfg.fields[r.field].column].ms <= r.hi.value.ms)
  {
  }

  /** A row is in an address set if its text is one of the given ones, trimmed and in any case. */
  lemma AddressIsIn(cfg: EntityConfig, f: AddressFilter, row: Record)
    ensures
      AddressOk(cfg, f, row) <==>
      && f.field in cfg.fields && cfg.fields[f.field].column in row && row[cfg.fields[f.field].column].Word?
      && exists i :: 0 <= i < |f.addresses|
                     && SameIgnoringCase(row[cfg.fields[f.field].column].s, Trim(f.addresses[i]))
  {
    var v := ColumnOf(cfg, row, f.field);
    if v.Word? {
      forall i | 0 <= i < |f.addresses|
        ensures Lower(v.s) == Lower(Trim(f.addresses[i])) <==> SameIgnoringCase(v.s, Trim(f.addresses[i]))
      {
        LowerIff(v.s, Trim(f.addresses[i]));
      }
    }
  }

  /** A row has a boolean if its column holds the value that was given or spelled. */
  lemma BooleanIsHeld(cfg: EntityConfig, f: BooleanFilter, row: Record)
    ensures
      BooleanOk(cfg, f, row) <==>
      && f.field in cfg.fields && cfg.fields[f.field].column in row && row[cfg.fields[f.field].column].Bool?
      && (var b := row[cfg.fields[f.field].column].b;
          match f.value
          case Flag(given) => given == b
          case Spelled(s) => SameIgnoringCase(Trim(s), if b then "true" else "false"))
  {
    BooleanIs(f.value, true);
    BooleanIs(f.value, false);
  }

  predicate ConditionHolds(c: Condition, row: Record) {
    var v := if c.column in row then row[c.column] else Null;
    match c.op
    case Equal => v == c.value && v != Null
    case NotEqual => v != c.value && v != Null && c.value != Null
    case Is => v == c.value
    case IsNot => v != c.value
  }

  /** A status holds if every one of its conditions does; a comparison with NULL only by IS and IS NOT. */
  lemma StatusIsHeld(cfg: EntityConfig, status: string, row: Record)
    requires status in cfg.statuses
    ensures HasStatus(cfg, status, row) <==>
            forall k :: 0 <= k < |cfg.statuses[status]| ==> ConditionHolds(cfg.statuses[status][k], row)
  {
    var cs := cfg.statuses[status];
    forall k | 0 <= k < |cs|
      ensures ConditionHolds(cs[k], row) <==> Compare(Column(row, cs[k].column), cs[k].op, cs[k].value)
    {
    }
  }
}
