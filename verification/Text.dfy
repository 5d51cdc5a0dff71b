/**
 Text as the backend handles it: decimal numerals, lexicographic order on
 strings, and splitting on a separator. These are the building blocks of the
 leaderboard cursor, the filter parameter names and the ISO week identifier.
 */
module Text {

  datatype Option<+T> = None | Some(value: T)

  function Power2(n: nat): (p: nat)
    ensures p >= 1
  {
    if n == 0 then 1 else 2 * Power2(n - 1)
  }

  // ---------------------------------------------------------------- numerals

  function DigitChar(d: nat): (c: char)
    requires d < 10
    ensures '0' <= c <= '9'
  {
    '0' + d as char
  }

  predicate IsDigit(c: char) {
    '0' <= c <= '9'
  }

  function DigitValue(c: char): (d: nat)
    requires IsDigit(c)
    ensures d < 10
  {
    (c - '0') as nat
  }

  predicate AllDigits(s: string) {
    forall i :: 0 <= i < |s| ==> IsDigit(s[i])
  }

  /** The decimal numeral of a natural number, as JavaScript prints it. */
  function ShowNat(n: nat): (s: string)
    ensures |s| > 0 && AllDigits(s)
  {
    if n < 10 then [DigitChar(n)] else ShowNat(n / 10) + [DigitChar(n % 10)]
  }

  function ReadNat(s: string): (n: nat)
    requires AllDigits(s)
  {
    if s == "" then 0 else ReadNat(s[..|s| - 1]) * 10 + DigitValue(s[|s| - 1])
  }

  function Show(n: int): (s: string)
    ensures |s| > 0
  {
    if n < 0 then "-" + ShowNat(-n) else ShowNat(n)
  }

  /** `Number(s)` on the strings a cursor can hold; None stands for NaN. */
  function ParseNumber(s: string): (r: Option<int>)
  {
    if AllDigits(s) then Some(ReadNat(s))
    else if s[0] == '-' && |s| > 1 && AllDigits(s[1..]) then
      var magnitude: int := ReadNat(s[1..]);
      Some(-magnitude)
    else None
  }

  /** The longest prefix of digits, as `parseInt` reads it. */
  function DigitPrefix(s: string): (p: string)
    ensures AllDigits(p) && p <= s
  {
    if s == "" || !IsDigit(s[0]) then "" else [s[0]] + DigitPrefix(s[1..])
  }

  /** `parseInt(s, 10)` without leading white space; None stands for NaN. */
  function ParseInt(s: string): (r: Option<int>)
  {
    var negative := |s| > 0 && s[0] == '-';
    var digits := DigitPrefix(if negative then s[1..] else s);
    if digits == "" then None
    else
      var magnitude: int := ReadNat(digits);
      Some(if negative then -magnitude else magnitude)
  }

  lemma {:induction false} ReadShowNat(n: nat)
    ensures ReadNat(ShowNat(n)) == n
  {
    if n >= 10 {
      ReadShowNat(n / 10);
      var s := ShowNat(n);
      assert s[..|s| - 1] == ShowNat(n / 10);
    }
  }

  lemma {:induction false} DigitPrefixOfDigits(s: string)
    requires AllDigits(s)
    ensures DigitPrefix(s) == s
  {
    if s != "" {
      DigitPrefixOfDigits(s[1..]);
    }
  }

  lemma ParseDigits(n: nat)
    ensures ParseNumber(ShowNat(n)) == Some(n)
    ensures ParseInt(ShowNat(n)) == Some(n)
  {
    ReadShowNat(n);
    DigitPrefixOfDigits(ShowNat(n));
  }

  lemma SignIsNoDigit(s: string)
    requires s != "" && s[0] == '-'
    ensures !AllDigits(s)
  {
    assert !IsDigit(s[0]);
  }

  /** A sign in front of digits, for each of the readers. */
  lemma ParseNumberSigned(s: string)
    requires |s| > 1 && s[0] == '-' && AllDigits(s[1..])
    ensures
      var magnitude: int := ReadNat(s[1..]);
      ParseNumber(s) == Some(-magnitude)
  {
    SignIsNoDigit(s);
  }

  lemma ParseIntSigned(s: string)
    requires |s| > 1 && s[0] == '-' && AllDigits(s[1..])
    ensures
      var magnitude: int := ReadNat(s[1..]);
      ParseInt(s) == Some(-magnitude)
  {
    DigitPrefixOfDigits(s[1..]);
  }

  lemma ParseNegative(n: int)
    requires n < 0
    ensures ParseNumber(Show(n)) == Some(n) && ParseInt(Show(n)) == Some(n)
  {
    var s := Show(n);
    assert s[1..] == ShowNat(-n);
    ReadShowNat(-n);
    ParseNumberSigned(s);
    ParseIntSigned(s);
  }

  /** Both number readers undo `Show`. */
  lemma {:induction false} ParseShow(n: int)
    ensures ParseNumber(Show(n)) == Some(n)
    ensures ParseInt(Show(n)) == Some(n)
  {
    if n < 0 {
      ParseNegative(n);
    } else {
      ParseDigits(n);
    }
  }

  lemma {:induction false} ShowInjective(m: int, n: int)
    requires Show(m) == Show(n)
    ensures m == n
  {
    ParseShow(m);
    ParseShow(n);
  }

  lemma ShowHasNo(n: int, c: char)
    requires !IsDigit(c) && c != '-'
    ensures c !in Show(n)
  {
    var k := if n < 0 then -n else n;
    assert AllDigits(ShowNat(k));
    assert forall i :: 0 <= i < |Show(n)| ==> IsDigit(Show(n)[i]) || Show(n)[i] == '-';
  }

  // ------------------------------------------------------------------- order

  /** Strict lexicographic order by code unit, a prefix coming first. */
  predicate Less(a: string, b: string) {
    if b == "" then false
    else if a == "" then true
    else a[0] < b[0] || (a[0] == b[0] && Less(a[1..], b[1..]))
  }

  lemma {:induction false} LessIrreflexive(a: string)
    ensures !Less(a, a)
  {
    if a != "" {
      LessIrreflexive(a[1..]);
    }
  }

  lemma {:induction false} LessTransitive(a: string, b: string, c: string)
    requires Less(a, b) && Less(b, c)
    ensures Less(a, c)
  {
    if a != "" && a[0] == b[0] && b[0] == c[0] {
      LessTransitive(a[1..], b[1..], c[1..]);
    }
  }

  lemma {:induction false} LessTotal(a: string, b: string)
    ensures a == b || Less(a, b) || Less(b, a)
  {
    if a != "" && b != "" && a[0] == b[0] {
      LessTotal(a[1..], b[1..]);
      assert a == [a[0]] + a[1..] && b == [b[0]] + b[1..];
    }
  }

  /** The place where `a` and `b` part: there `a` has ended or has the lesser character. */
  predicate PartsAt(a: string, b: string, i: nat) {
    i <= |a| && i < |b| && a[..i] == b[..i] && (i == |a| || a[i] < b[i])
  }

  /** The order is lexicographic: the strings agree up to some place and part there. */
  lemma {:induction false} LessIff(a: string, b: string)
    ensures Less(a, b) <==> exists i: nat :: PartsAt(a, b, i)
    decreases |a|
  {
    if a == "" || b == "" || a[0] != b[0] {
      if Less(a, b) {
        assert PartsAt(a, b, 0);
      }
      if i: nat :| PartsAt(a, b, i) {
        assert i > 0 ==> a[..i][0] == b[..i][0];
      }
    } else {
      LessIff(a[1..], b[1..]);
      if i: nat :| PartsAt(a[1..], b[1..], i) {
        assert a[..i + 1] == [a[0]] + a[1..][..i] && b[..i + 1] == [b[0]] + b[1..][..i];
        assert PartsAt(a, b, i + 1);
      }
      if i: nat :| PartsAt(a, b, i) {
        assert a[1..][..i - 1] == a[..i][1..] && b[1..][..i - 1] == b[..i][1..];
        assert PartsAt(a[1..], b[1..], i - 1);
      }
    }
  }

  // ------------------------------------------------------------------- split

  /** `s.split(c)`: the maximal `c`-free pieces, always at least one. */
  function Split(s: string, c: char): (parts: seq<string>)
    ensures |parts| >= 1
    ensures forall i :: 0 <= i < |parts| ==> c !in parts[i]
  {
    if s == "" then [""]
    else if s[0] == c then [""] + Split(s[1..], c)
    else
      var rest := Split(s[1..], c);
      [[s[0]] + rest[0]] + rest[1..]
  }

  lemma {:induction false} SplitFree(p: string, c: char)
    requires c !in p
    ensures Split(p, c) == [p]
  {
    if p != "" {
      assert p[0] in p;
      assert forall x :: x in p[1..] ==> x in p;
      SplitFree(p[1..], c);
      assert [p[0]] + p[1..] == p;
    }
  }

  lemma {:induction false} SplitCons(p: string, s: string, c: char)
    requires c !in p
    ensures Split(p + [c] + s, c) == [p] + Split(s, c)
  {
    if p == "" {
      assert ("" + [c] + s)[1..] == s;
    } else {
      assert p[0] in p;
      assert forall x :: x in p[1..] ==> x in p;
      SplitCons(p[1..], s, c);
      assert (p + [c] + s)[1..] == p[1..] + [c] + s;
      assert [p[0]] + p[1..] == p;
    }
  }

  lemma {:induction false} SplitOnlyWhenPresent(s: string, c: char)
    ensures |Split(s, c)| == 1 <==> c !in s
  {
    if s != "" {
      SplitOnlyWhenPresent(s[1..], c);
      assert s == [s[0]] + s[1..];
    }
  }
}
