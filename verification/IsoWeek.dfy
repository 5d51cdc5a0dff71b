/**
 ISO week identifiers such as "2026-W34" and the weekly refresh of cached coach insights
 that they scope. Days are numbered from 1 January 1970, a Thursday, in the proleptic
 Gregorian calendar.
 */
module IsoWeek {
  import opened Text

  const DAY_MS := 86400000

  // ------------------------------------------------------------------ the calendar

  predicate IsLeap(y: int) {
    y % 4 == 0 && (y % 100 != 0 || y % 400 == 0)
  }

  /** Leap years up to and including y, up to a constant. */
  function Leaps(y: int): int {
    y / 4 - y / 100 + y / 400
  }

  /** The day number of 1 January of year y. */
  function YearStart(y: int): int {
    365 * (y - 1970) + Leaps(y - 1) - Leaps(1969)
  }

  lemma Quotients(y: int)
    ensures y / 4 - (y - 1) / 4 == if y % 4 == 0 then 1 else 0
    ensures y / 100 - (y - 1) / 100 == if y % 100 == 0 then 1 else 0
    ensures y / 400 - (y - 1) / 400 == if y % 400 == 0 then 1 else 0
    ensures (y % 400 == 0 ==> y % 100 == 0) && (y % 100 == 0 ==> y % 4 == 0)
  {
    var q, r := y / 400, y % 400;
    assert y == 400 * q + r;
    assert y / 100 == 4 * q + r / 100 && y % 100 == r % 100;
    assert y / 4 == 100 * q + r / 4 && y % 4 == r % 4;
  }

  lemma YearLength(y: int)
    ensures YearStart(y + 1) - YearStart(y) == if IsLeap(y) then 366 else 365
  {
    Quotients(y);
    assert Leaps(y) - Leaps(y - 1) == if IsLeap(y) then 1 else 0;
  }

  /** The calendar: day 0 is 1 January 1970, and leap years come by the Gregorian rule. */
  lemma GregorianCalendar(y: int)
    ensures YearStart(1970) == 0 && YearOf(0) == 1970
    ensures YearStart(y + 1) - YearStart(y) == 366 <==> y % 4 == 0 && (y % 100 != 0 || y % 400 == 0)
    ensures YearStart(y + 1) - YearStart(y) in {365, 366}
  {
    YearLength(y);
    YearLength(1970);
  }

  /** The year of a day before the end of year `y`. */
  function YearDown(y: int, day: int): (r: int)
    requires day < YearStart(y + 1)
    ensures YearStart(r) <= day < YearStart(r + 1)
    decreases YearStart(y + 1) - day
  {
    YearLength(y);
    if day < YearStart(y) then YearDown(y - 1, day) else y
  }

  /** The year of a day from the start of year `y`. */
  function YearUp(y: int, day: int): (r: int)
    requires YearStart(y) <= day
    ensures YearStart(r) <= day < YearStart(r + 1)
    decreases day - YearStart(y)
  {
    YearLength(y);
    if day >= YearStart(y + 1) then YearUp(y + 1, day) else y
  }

  function YearOf(day: int): (r: int)
    ensures YearStart(r) <= day < YearStart(r + 1)
  {
    if day < 0 then YearDown(1969, day) else YearUp(1970, day)
  }

  lemma {:induction false} YearsAdvance(a: int, b: int)
    requires a < b
    ensures YearStart(a) < YearStart(b)
    decreases b - a
  {
    YearLength(b - 1);
    if a < b - 1 {
      YearsAdvance(a, b - 1);
    }
  }

  lemma YearIsUnique(y: int, day: int)
    requires YearStart(y) <= day < YearStart(y + 1)
    ensures YearOf(day) == y
  {
    var r := YearOf(day);
    if r < y {
      YearsAdvance(r, y);
      if r + 1 < y {
        YearsAdvance(r + 1, y);
      }
    } else if y < r {
      if y + 1 < r {
        YearsAdvance(y + 1, r);
      }
    }
  }

  // ---------------------------------------------------------------- the identifier

  /** Monday 1 to Sunday 7. */
  function DayNumber(day: int): int {
    var utcDay := (day + 4) % 7;
    if utcDay == 0 then 7 else utcDay
  }

  /** The Thursday of the week of `day`. */
  function Thursday(day: int): int {
    day + 4 - DayNumber(day)
  }

  /** The week number of a Thursday that many days after 1 January: days / 7, rounded up. */
  function WeekWithin(offset: int): int {
    (offset + 1 + 6) / 7
  }

  /** The number of the week of a Thursday. */
  function NumberOf(thursday: int): int {
    WeekWithin(thursday - YearStart(YearOf(thursday)))
  }

  function WeekNumber(day: int): int {
    NumberOf(Thursday(day))
  }

  function PadTwo(n: nat): string {
    if n < 10 then "0" + Show(n) else Show(n)
  }

  lemma WeekNumberRange(day: int)
    ensures 1 <= WeekNumber(day) <= 53
  {
    YearLength(YearOf(Thursday(day)));
  }

  function WeekId(day: int): string {
    WeekNumberRange(day);
    Show(YearOf(Thursday(day))) + "-W" + PadTwo(WeekNumber(day))
  }

  /** Both days lie between the same Monday and the Sunday after it. */
  predicate SameWeek(a: int, b: int) {
    (a + 3) / 7 == (b + 3) / 7
  }

  lemma ThursdayOfWeek(day: int)
    ensures Thursday(day) == (day + 3) / 7 * 7
  {
  }

  lemma PadTwoIsTwo(n: nat)
    requires 1 <= n <= 99
    ensures |PadTwo(n)| == 2
  {
    if n >= 10 {
      assert ShowNat(n) == ShowNat(n / 10) + [DigitChar(n % 10)];
    }
  }

  lemma PadTwoFirst(n: nat)
    requires 1 <= n <= 99
    ensures |PadTwo(n)| == 2 && (PadTwo(n)[0] == '0' <==> n < 10)
  {
    PadTwoIsTwo(n);
    if n >= 10 {
      assert ShowNat(n) == ShowNat(n / 10) + [DigitChar(n % 10)];
      assert PadTwo(n)[0] == DigitChar(n / 10);
    }
  }

  lemma PadTwoInjective(m: nat, n: nat)
    requires 1 <= m <= 99 && 1 <= n <= 99 && PadTwo(m) == PadTwo(n)
    ensures m == n
  {
    PadTwoFirst(m);
    PadTwoFirst(n);
    if m < 10 {
      assert PadTwo(m)[1..] == Show(m) && PadTwo(n)[1..] == Show(n);
    }
    ShowInjective(m, n);
  }

  /** The identifier determines its year and its week number. */
  lemma IdDetermines(a: int, b: int)
    requires WeekId(a) == WeekId(b)
    ensures YearOf(Thursday(a)) == YearOf(Thursday(b)) && WeekNumber(a) == WeekNumber(b)
  {
    WeekNumberRange(a);
    WeekNumberRange(b);
    var ya, yb := Show(YearOf(Thursday(a))), Show(YearOf(Thursday(b)));
    var wa, wb := PadTwo(WeekNumber(a)), PadTwo(WeekNumber(b));
    PadTwoIsTwo(WeekNumber(a));
    PadTwoIsTwo(WeekNumber(b));
    assert WeekId(a) == ya + "-W" + wa && WeekId(b) == yb + "-W" + wb;
    assert |ya| == |yb|;
    assert ya == WeekId(a)[..|ya|] == yb;
    assert wa == WeekId(a)[|ya| + 2..] == wb;
    ShowInjective(YearOf(Thursday(a)), YearOf(Thursday(b)));
    PadTwoInjective(WeekNumber(a), WeekNumber(b));
  }

  /** Thursdays of one year with one number are one day. */
  lemma NumberDetermines(s: int, t: int)
    requires YearOf(s) == YearOf(t) && NumberOf(s) == NumberOf(t) && (s - t) % 7 == 0
    ensures s == t
  {
    OffsetDetermines(s - YearStart(YearOf(s)), t - YearStart(YearOf(s)));
  }

  lemma OffsetDetermines(x: int, y: int)
    requires WeekWithin(x) == WeekWithin(y) && (x - y) % 7 == 0
    ensures x == y
  {
  }

  lemma ThursdaysApart(a: int, b: int)
    ensures (Thursday(a) - Thursday(b)) % 7 == 0
    ensures Thursday(a) == Thursday(b) <==> SameWeek(a, b)
  {
    ThursdayOfWeek(a);
    ThursdayOfWeek(b);
  }

  /** Two days have the same identifier exactly when they lie in the same Monday-to-Sunday week. */
  lemma SameIdIffSameWeek(a: int, b: int)
    ensures WeekId(a) == WeekId(b) <==> SameWeek(a, b)
  {
    ThursdaysApart(a, b);
    if WeekId(a) == WeekId(b) {
      IdDetermines(a, b);
      NumberDetermines(Thursday(a), Thursday(b));
    }
  }

  /** The Thursday is in the same Monday-to-Sunday week; it decides the year. */
  lemma ThursdayIsNear(day: int)
    ensures Thursday(day) % 7 == 0 && day - 3 <= Thursday(day) <= day + 3 && SameWeek(day, Thursday(day))
  {
    ThursdayOfWeek(day);
  }

  lemma PadTwoIs(n: nat)
    ensures PadTwo(n) == (if n < 10 then "0" else "") + Show(n)
  {
    assert "" + Show(n) == Show(n);
  }

  /** The text: the year of the Thursday of the week, "-W" and the week number in two digits. */
  lemma IdText(day: int)
    ensures
      var year, week := YearOf(Thursday(day)), WeekNumber(day);
      week >= 1 && WeekId(day) == Show(year) + "-W" + ((if week < 10 then "0" else "") + Show(week))
  {
    WeekNumberRange(day);
    PadTwoIs(WeekNumber(day));
  }

  /** Week 1 of a year is the week of 4 January, as section 4.1.4 of ISO 8601:2004 has it. */
  lemma WeekOneHoldsJanuaryFourth(y: int)
    ensures WeekNumber(YearStart(y) + 3) == 1 && YearOf(Thursday(YearStart(y) + 3)) == y
  {
    var day := YearStart(y) + 3;
    ThursdayOfWeek(day);
    YearLength(y);
    YearIsUnique(y, Thursday(day));
  }

  lemma NextNumber(t: int)
    ensures YearOf(t + 7) == YearOf(t) ==> NumberOf(t + 7) == NumberOf(t) + 1
    ensures YearOf(t + 7) != YearOf(t) ==> NumberOf(t + 7) == 1
  {
    ThursdayYear(t);
    WeekLater(t - YearStart(YearOf(t)));
  }

  lemma WeekLater(offset: int)
    ensures WeekWithin(offset + 7) == WeekWithin(offset) + 1
  {
  }

  lemma ThursdayLater(day: int)
    ensures Thursday(day + 7) == Thursday(day) + 7
  {
  }

  /** Weeks are numbered one after the other within a year. */
  lemma NextWeekIsNextNumber(day: int)
    ensures YearOf(Thursday(day + 7)) == YearOf(Thursday(day)) ==> WeekNumber(day + 7) == WeekNumber(day) + 1
    ensures YearOf(Thursday(day + 7)) != YearOf(Thursday(day)) ==> WeekNumber(day + 7) == 1
  {
    ThursdayLater(day);
    NextNumber(Thursday(day));
  }

  /** A week later it is the same year, or the first week of the next. */
  lemma ThursdayYear(t: int)
    ensures
      var y, z := YearOf(t), YearOf(t + 7);
      z == y || (z == y + 1 && WeekWithin(t + 7 - YearStart(z)) == 1)
  {
    var y := YearOf(t);
    YearLength(y);
    YearLength(y + 1);
    YearIsUnique(if t + 7 < YearStart(y + 1) then y else y + 1, t + 7);
  }

  // ------------------------------------------------------------- the weekly refresh

  function InsightKey(user: string, week: string): string {
    "leaderboard:coach:" + user + ":" + week
  }

  lemma {:induction false} LastPart(s: string, w: string)
    requires ':' !in w
    ensures
      var parts := Split(s + ":" + w, ':');
      parts[|parts| - 1] == w
  {
    if s == "" {
      SplitCons("", w, ':');
      SplitFree(w, ':');
      assert "" + [':'] + w == s + ":" + w;
    } else {
      LastPart(s[1..], w);
      assert (s + ":" + w)[1..] == s[1..] + ":" + w;
      assert (s + ":" + w)[0] == s[0];
      if s[0] != ':' {
        SplitOnlyWhenPresent(s[1..] + ":" + w, ':');
        assert (s[1..] + ":" + w)[|s| - 1] == ':';
      }
    }
  }

  lemma WeekIdHasNoColon(day: int)
    ensures ':' !in WeekId(day)
  {
    WeekNumberRange(day);
    ShowHasNo(YearOf(Thursday(day)), ':');
    ShowHasNo(WeekNumber(day), ':');
  }

  lemma KeyEndsWithWeek(u: string, v: string, x: string, y: string)
    requires ':' !in x && ':' !in y && InsightKey(u, x) == InsightKey(v, y)
    ensures x == y
  {
    LastPart("leaderboard:coach:" + u, x);
    LastPart("leaderboard:coach:" + v, y);
  }

  /** Keys of different weeks are different, whoever the users are. */
  lemma KeysOfWeeksDiffer(u: string, v: string, a: int, b: int)
    requires !SameWeek(a, b)
    ensures InsightKey(u, WeekId(a)) != InsightKey(v, WeekId(b))
  {
    SameIdIffSameWeek(a, b);
    WeekIdHasNoColon(a);
    WeekIdHasNoColon(b);
    if InsightKey(u, WeekId(a)) == InsightKey(v, WeekId(b)) {
      KeyEndsWithWeek(u, v, WeekId(a), WeekId(b));
    }
  }

  lemma KeysOfUsersDiffer(u: string, v: string, week: string)
    requires InsightKey(u, week) == InsightKey(v, week)
    ensures u == v
  {
    var p := "leaderboard:coach:";
    var x, y := InsightKey(u, week), InsightKey(v, week);
    assert |x| == |p| + |u| + 1 + |week| && |y| == |p| + |v| + 1 + |week|;
    assert u == x[|p|..|p| + |u|] && v == y[|p|..|p| + |v|];
  }

  class CoachCache {
    var entries: map<string, string>

    constructor ()
      ensures entries == map[]
    {
      entries := map[];
    }

    /**
     For every user the entry of last week is dropped and the entry of this week computed
     and written; a failed computation skips that user. No drop hits an entry of this week.
     */
    method RefreshWeeklyCoachInsights(users: seq<string>, nowMs: int, compute: string -> Option<string>)
      returns (refreshed: nat)
      modifies this
      ensures forall i :: 0 <= i < |users| ==> InsightKey(users[i], WeekId((nowMs - 604800000) / 86400000)) !in entries
      ensures forall i :: 0 <= i < |users| && compute(users[i]).Some? ==>
                var key := InsightKey(users[i], WeekId(nowMs / 86400000));
                key in entries && entries[key] == compute(users[i]).value
      ensures refreshed == Successes(users, compute)
      ensures OthersKept(old(entries), entries, users, WeekId(nowMs / 86400000),
                         WeekId((nowMs - 604800000) / 86400000))
    {
      var today, lastWeek := nowMs / DAY_MS, (nowMs - 7 * DAY_MS) / DAY_MS;
      assert lastWeek == today - 7;
      var currentWeekId, previousWeekId := WeekId(today), WeekId(lastWeek);
      KeysApart(users, today, lastWeek);
      refreshed := RefreshAll(users, currentWeekId, previousWeekId, compute);
    }

    method RefreshAll(users: seq<string>, current: string, previous: string, compute: string -> Option<string>)
      returns (refreshed: nat)
      requires Apart(users, Keys(users, current), Keys(users, previous))
      modifies this
      ensures InProgress(old(entries), entries, users, current, previous, compute, |users|)
      ensures refreshed == Successes(users, compute)
    {
      refreshed := 0;
      var i := 0;
      while i < |users|
        invariant 0 <= i <= |users| && refreshed + Successes(users[i..], compute) == Successes(users, compute)
        invariant InProgress(old(entries), entries, users, current, previous, compute, i)
      {
        var done := RefreshNext(users, i, current, previous, compute, old(entries));
        if done {
          refreshed := refreshed + 1;
        }
        assert users[i..][1..] == users[i + 1..];
        i := i + 1;
      }
    }

    /** One turn of the loop over the users. */
    method RefreshNext(users: seq<string>, i: nat, current: string, previous: string, compute: string -> Option<string>,
                       ghost before: map<string, string>) returns (done: bool)
      requires i < |users| && Apart(users, Keys(users, current), Keys(users, previous))
      requires InProgress(before, entries, users, current, previous, compute, i)
      modifies this
      ensures InProgress(before, entries, users, current, previous, compute, i + 1)
      ensures done <==> compute(users[i]).Some?
    {
      UserStep(before, entries, users, current, previous, compute, i);
      var insights := compute(users[i]);
      RefreshUser(InsightKey(users[i], previous), InsightKey(users[i], current), insights);
      return insights.Some?;
    }

    method RefreshUser(previousKey: string, currentKey: string, insights: Option<string>)
      modifies this
      ensures entries == UserRefreshed(old(entries), previousKey, currentKey, insights)
    {
      entries := entries - {previousKey};
      if insights.Some? {
        entries := entries[currentKey := insights.value];
      }
    }
  }

  function Keys(users: seq<string>, week: string): (ks: seq<string>)
    ensures |ks| == |users| && forall i :: 0 <= i < |users| ==> ks[i] == InsightKey(users[i], week)
  {
    seq(|users|, i requires 0 <= i < |users| => InsightKey(users[i], week))
  }

  /** Every entry but those of the users for these two weeks is as before. */
  ghost predicate OthersKept(before: map<string, string>, after: map<string, string>, users: seq<string>,
                             current: string, previous: string)
  {
    forall key :: key !in Keys(users, current) && key !in Keys(users, previous) ==>
      (key in after <==> key in before) && (key in before ==> after[key] == before[key])
  }

  /** The entries after the refresh of one user. */
  function UserRefreshed(entries: map<string, string>, previousKey: string, currentKey: string,
                         insights: Option<string>): map<string, string>
  {
    if insights.Some? then (entries - {previousKey})[currentKey := insights.value] else entries - {previousKey}
  }

  /** The first `n` users are refreshed, and every other entry is as before. */
  ghost predicate InProgress(before: map<string, string>, entries: map<string, string>, users: seq<string>,
                             current: string, previous: string, compute: string -> Option<string>, n: nat)
    requires n <= |users|
  {
    && Refreshed(entries, users, Keys(users, current), Keys(users, previous), compute, n)
    && OthersKept(before, entries, users, current, previous)
  }

  lemma UserStep(before: map<string, string>, entries: map<string, string>, users: seq<string>, current: string,
                 previous: string, compute: string -> Option<string>, i: nat)
    requires i < |users| && Apart(users, Keys(users, current), Keys(users, previous))
    requires InProgress(before, entries, users, current, previous, compute, i)
    ensures InProgress(before, UserRefreshed(entries, InsightKey(users[i], previous), InsightKey(users[i], current),
                                             compute(users[i])),
                       users, current, previous, compute, i + 1)
  {
    KeepsOthers(before, entries, users, current, previous, i, compute(users[i]));
    RefreshedMore(entries, users, Keys(users, current), Keys(users, previous), compute, i);
  }

  lemma KeepsOthers(before: map<string, string>, entries: map<string, string>, users: seq<string>, current: string,
                    previous: string, i: nat, insights: Option<string>)
    requires i < |users| && OthersKept(before, entries, users, current, previous)
    ensures
      var left := entries - {InsightKey(users[i], previous)};
      OthersKept(before, if insights.Some? then left[InsightKey(users[i], current) := insights.value] else left,
                 users, current, previous)
  {
    assert Keys(users, current)[i] in Keys(users, current) && Keys(users, previous)[i] in Keys(users, previous);
  }

  /** Keys of this week differ from keys of last week, and among each other by user. */
  predicate Apart(users: seq<string>, now: seq<string>, past: seq<string>)
    requires |users| == |now| == |past|
  {
    && (forall i, j :: 0 <= i < |users| && 0 <= j < |users| ==> now[i] != past[j])
    && (forall i, j :: 0 <= i < |users| && 0 <= j < |users| && now[i] == now[j] ==> users[i] == users[j])
  }

  /** The first `n` users are refreshed. */
  predicate Refreshed(entries: map<string, string>, users: seq<string>, now: seq<string>, past: seq<string>,
                      compute: string -> Option<string>, n: nat)
    requires n <= |users| == |now| == |past|
  {
    && (forall j :: 0 <= j < n ==> past[j] !in entries)
    && (forall j :: 0 <= j < n && compute(users[j]).Some? ==>
          now[j] in entries && entries[now[j]] == compute(users[j]).value)
  }

  lemma RefreshedMore(entries: map<string, string>, users: seq<string>, now: seq<string>, past: seq<string>,
                      compute: string -> Option<string>, i: nat)
    requires i < |users| == |now| == |past| && Apart(users, now, past)
    requires Refreshed(entries, users, now, past, compute, i)
    ensures
      var left, insights := entries - {past[i]}, compute(users[i]);
      Refreshed(if insights.Some? then left[now[i] := insights.value] else left, users, now, past, compute, i + 1)
  {
  }

  lemma KeysApart(users: seq<string>, a: int, b: int)
    requires !SameWeek(a, b)
    ensures Apart(users, Keys(users, WeekId(a)), Keys(users, WeekId(b)))
  {
    var now, past := Keys(users, WeekId(a)), Keys(users, WeekId(b));
    forall i, j | 0 <= i < |users| && 0 <= j < |users| ensures now[i] != past[j] {
      KeysOfWeeksDiffer(users[i], users[j], a, b);
    }
    forall i, j | 0 <= i < |users| && 0 <= j < |users| && now[i] == now[j] ensures users[i] == users[j] {
      KeysOfUsersDiffer(users[i], users[j], WeekId(a));
    }
  }

  /** The users whose insights could be computed. */
  function Successes(users: seq<string>, compute: string -> Option<string>): nat {
    if users == [] then 0
    else Successes(users[1..], compute) + if compute(users[0]).Some? then 1 else 0
  }
}
