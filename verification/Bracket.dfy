/** Single-elimination brackets: participants in seed order, byes for the top seeds. */
module Bracket {
  import opened Text

  datatype Matchup = Matchup(round: nat, number: nat, first: Option<string>, second: Option<string>,
                             winner: Option<string>, isBye: bool)

  datatype Bracket = Bracket(totalRounds: nat, matchups: seq<Matchup>)

  datatype Result = Ok(value: Bracket) | TooFewParticipants

  // -------------------------------------------------------------------------- sizes

  /** The least r with n <= 2^r, that is the logarithm rounded up. */
  function CeilLog2(n: nat): nat
    requires n >= 1
  {
    if n == 1 then 0 else 1 + CeilLog2((n + 1) / 2)
  }

  /** The bracket is the smallest power of two that holds everyone; half of it does not. */
  lemma {:induction false} SizeFits(n: nat)
    requires n >= 1
    ensures n <= Power2(CeilLog2(n)) < 2 * n
    ensures n >= 2 ==> CeilLog2(n) >= 1 && Power2(CeilLog2(n)) == 2 * Power2(CeilLog2(n) - 1)
    ensures n >= 2 ==> Power2(CeilLog2(n) - 1) < n
  {
    if n > 1 {
      SizeFits((n + 1) / 2);
    }
  }

  function Rounds(n: nat): nat
    requires n >= 2
  {
    CeilLog2(n)
  }

  function Size(n: nat): nat
    requires n >= 2
  {
    Power2(Rounds(n))
  }

  function Half(n: nat): nat
    requires n >= 2
  {
    Size(n) / 2
  }

  function Byes(n: nat): int
    requires n >= 2
  {
    Size(n) - n
  }

  lemma Sizes(n: nat)
    requires n >= 2
    ensures Size(n) == 2 * Half(n) && Rounds(n) >= 1 && Half(n) == Power2(Rounds(n) - 1)
    ensures 0 <= Byes(n) < Half(n) && Byes(n) + 2 * (Half(n) - Byes(n)) == n
  {
    SizeFits(n);
  }

  // ----------------------------------------------------------------- what is built

  /** How many participants are placed before matchup `m` of the first round. */
  function Placed(n: nat, m: nat): int
    requires n >= 2
  {
    if m <= Byes(n) then m else Byes(n) + 2 * (m - Byes(n))
  }

  function FirstRoundMatchup(ps: seq<string>, m: nat): Matchup
    requires |ps| >= 2 && m < Half(|ps|)
  {
    Sizes(|ps|);
    var i := Placed(|ps|, m);
    if m < Byes(|ps|) then Matchup(1, m + 1, Some(ps[i]), None, Some(ps[i]), true)
    else Matchup(1, m + 1, Some(ps[i]), Some(ps[i + 1]), None, false)
  }

  function FirstRound(ps: seq<string>): (ms: seq<Matchup>)
    requires |ps| >= 2
    ensures |ms| == Half(|ps|)
  {
    seq(Half(|ps|), m requires 0 <= m < Half(|ps|) => FirstRoundMatchup(ps, m))
  }

  /** `count` empty matchups of round `r`. */
  function EmptyRound(r: nat, count: nat): (ms: seq<Matchup>)
    ensures |ms| == count
    ensures forall m :: 0 <= m < count ==> ms[m] == Matchup(r, m + 1, None, None, None, false)
  {
    seq(count, m requires 0 <= m < count => Matchup(r, m + 1, None, None, None, false))
  }

  /** The rounds after round `r` of `total`: each has half as many matchups as the one before. */
  function LaterRounds(r: nat, total: nat): seq<Matchup>
    decreases total - r
  {
    if r >= total then [] else EmptyRound(r + 1, Power2(total - r - 1)) + LaterRounds(r + 1, total)
  }

  function BracketOf(ps: seq<string>): Bracket
    requires |ps| >= 2
  {
    Bracket(Rounds(|ps|), FirstRound(ps) + LaterRounds(1, Rounds(|ps|)))
  }

  // ------------------------------------------------------------------ the procedure

  /** `generateBracket` from the participants in seed order. */
  method GenerateBracket(participants: seq<string>) returns (r: Result)
    ensures |participants| < 2 ==> r == TooFewParticipants
    ensures |participants| >= 2 ==> r == Ok(BracketOf(participants))
  {
    var total := |participants|;
    if total < 2 { return TooFewParticipants; }
    var totalRounds := CeilLog2(total);
    var bracketSize := Power2(totalRounds);
    var byeCount := bracketSize - total;
    Sizes(total);

    var participantIndex := 0;
    var matchups: seq<Matchup> := [];
    var m := 0;
    while m < bracketSize / 2
      invariant 0 <= m <= bracketSize / 2 && participantIndex == Placed(total, m)
      invariant matchups == FirstRound(participants)[..m]
    {
      var matchup;
      if m < byeCount {
        var p1 := participants[participantIndex];
        participantIndex := participantIndex + 1;
        matchup := Matchup(1, m + 1, Some(p1), None, Some(p1), true);
      } else {
        var p1, p2 := participants[participantIndex], participants[participantIndex + 1];
        participantIndex := participantIndex + 2;
        matchup := Matchup(1, m + 1, Some(p1), Some(p2), None, false);
      }
      NextMatchup(participants, m);
      matchups := matchups + [matchup];
      m := m + 1;
    }
    assert matchups == FirstRound(participants);

    var r' := 1;
    while r' < totalRounds
      invariant 1 <= r' <= totalRounds
      invariant matchups + LaterRounds(r', totalRounds) == FirstRound(participants) + LaterRounds(1, totalRounds)
    {
      var matchesInRound := MatchesInRound(bracketSize, totalRounds, r' + 1);
      var added := EmptyMatchups(r' + 1, matchesInRound);
      assert matchups + (added + LaterRounds(r' + 1, totalRounds))
             == (matchups + added) + LaterRounds(r' + 1, totalRounds);
      matchups := matchups + added;
      r' := r' + 1;
    }
    assert matchups + [] == matchups;
    return Ok(Bracket(totalRounds, matchups));
  }

  lemma NextMatchup(ps: seq<string>, m: nat)
    requires |ps| >= 2 && m < Half(|ps|)
    ensures FirstRound(ps)[..m + 1] == FirstRound(ps)[..m] + [FirstRoundMatchup(ps, m)]
  {
  }

  /** The bracket size over a power of two. */
  method MatchesInRound(bracketSize: nat, ghost totalRounds: nat, round: nat) returns (count: nat)
    requires round <= totalRounds && bracketSize == Power2(totalRounds)
    ensures count == Power2(totalRounds - round)
  {
    HalvingPower(totalRounds, round);
    count := bracketSize / Power2(round);
  }

  method EmptyMatchups(round: nat, count: nat) returns (ms: seq<Matchup>)
    ensures ms == EmptyRound(round, count)
  {
    ms := [];
    var m := 0;
    while m < count
      invariant 0 <= m <= count && ms == EmptyRound(round, count)[..m]
    {
      ms := ms + [Matchup(round, m + 1, None, None, None, false)];
      m := m + 1;
    }
  }

  lemma {:induction false} PowerProduct(a: nat, b: nat)
    ensures Power2(a + b) == Power2(a) * Power2(b)
    decreases a
  {
    if a > 0 {
      PowerProduct(a - 1, b);
    }
  }

  lemma HalvingPower(total: nat, r: nat)
    requires r <= total
    ensures Power2(total) / Power2(r) == Power2(total - r)
  {
    PowerProduct(total - r, r);
    var q, d := Power2(total - r), Power2(r);
    assert q * d / d == q by {
      DivideProduct(q, d);
    }
  }

  lemma DivideProduct(q: nat, d: nat)
    requires d > 0
    ensures q * d / d == q
  {
    QuotientIs(q * d, d, q, 0, q * d / d, q * d % d);
  }

  /** Quotient and remainder are unique. */
  lemma QuotientIs(x: int, d: int, q: int, r: int, t: int, s: int)
    requires x == q * d + r && x == t * d + s && 0 <= r < d && 0 <= s < d
    ensures q == t
  {
    if q < t {
      MultipleGrows(t - q, d);
      Distribute(t, q, d);
    } else if t < q {
      MultipleGrows(q - t, d);
      Distribute(q, t, d);
    }
  }

  lemma MultipleGrows(k: int, d: int)
    requires k >= 1 && d > 0
    ensures k * d >= d
  {
  }

  lemma Distribute(a: int, b: int, d: int)
    ensures (a - b) * d == a * d - b * d
  {
  }

  // -------------------------------------------------------------------- the theorems

  /** The participants in the slots of one matchup. */
  function SlotsIn(k: Matchup): seq<string> {
    (if k.first.Some? then [k.first.value] else []) + (if k.second.Some? then [k.second.value] else [])
  }

  /** The participants in the slots of a list of matchups, first slot before second. */
  function Slots(ms: seq<Matchup>): seq<string> {
    if ms == [] then []
    else
      Slots(ms[..|ms| - 1]) + SlotsIn(ms[|ms| - 1])
  }

  lemma SlotsSnoc(ms: seq<Matchup>, k: Matchup)
    ensures Slots(ms + [k]) == Slots(ms) + SlotsIn(k)
  {
    assert (ms + [k])[..|ms|] == ms;
  }

  /** The slots of the next matchup are the next participants. */
  lemma NextSlots(ps: seq<string>, m: nat)
    requires |ps| >= 2 && m < Half(|ps|)
    ensures 0 <= Placed(|ps|, m) <= Placed(|ps|, m + 1) <= |ps|
    ensures SlotsIn(FirstRoundMatchup(ps, m)) == ps[Placed(|ps|, m)..Placed(|ps|, m + 1)]
  {
    Sizes(|ps|);
  }

  lemma {:induction false} SlotsOfPrefix(ps: seq<string>, m: nat)
    requires |ps| >= 2 && m <= Half(|ps|)
    ensures 0 <= Placed(|ps|, m) <= |ps| && Slots(FirstRound(ps)[..m]) == ps[..Placed(|ps|, m)]
    decreases m
  {
    if m > 0 {
      SlotsOfPrefix(ps, m - 1);
      NextMatchup(ps, m - 1);
      SlotsSnoc(FirstRound(ps)[..m - 1], FirstRoundMatchup(ps, m - 1));
      NextSlots(ps, m - 1);
    } else {
      Sizes(|ps|);
    }
  }

  /** The first-round slots, read in order, are exactly the participants in seed order. */
  lemma EveryoneIsPlacedOnce(ps: seq<string>)
    requires |ps| >= 2
    ensures Slots(FirstRound(ps)) == ps
  {
    Sizes(|ps|);
    SlotsOfPrefix(ps, Half(|ps|));
    assert FirstRound(ps)[..Half(|ps|)] == FirstRound(ps) && ps[..|ps|] == ps;
  }

  /** The byes go exactly to the top seeds, who win them; everyone else has an opponent. */
  lemma ByesGoToTopSeeds(ps: seq<string>, m: nat)
    requires |ps| >= 2 && m < Half(|ps|)
    ensures
      var k := FirstRound(ps)[m];
      && m < |ps| && (k.isBye <==> m < Size(|ps|) - |ps|)
      && (k.isBye ==> k.first == Some(ps[m]) && k.winner == Some(ps[m]) && k.second == None)
      && (!k.isBye ==> k.first.Some? && k.second.Some? && k.winner == None)
  {
    Sizes(|ps|);
  }

  function NonByes(ms: seq<Matchup>): nat {
    if ms == [] then 0 else NonByes(ms[..|ms| - 1]) + if ms[|ms| - 1].isBye then 0 else 1
  }

  lemma {:induction false} NonByesConcat(a: seq<Matchup>, b: seq<Matchup>)
    ensures NonByes(a + b) == NonByes(a) + NonByes(b)
    decreases |b|
  {
    if b == [] {
      assert a + b == a;
    } else {
      assert (a + b)[..|a + b| - 1] == a + b[..|b| - 1];
      NonByesConcat(a, b[..|b| - 1]);
    }
  }

  lemma {:induction false} NonByesOfPlain(ms: seq<Matchup>)
    requires forall m :: 0 <= m < |ms| ==> !ms[m].isBye
    ensures NonByes(ms) == |ms|
    decreases |ms|
  {
    if ms != [] {
      NonByesOfPlain(ms[..|ms| - 1]);
    }
  }

  lemma EmptyRoundCounts(r: nat, count: nat)
    ensures |EmptyRound(r, count)| == count && NonByes(EmptyRound(r, count)) == count
  {
    NonByesOfPlain(EmptyRound(r, count));
  }

  /** Round `r + 1` comes before the later rounds. */
  lemma LaterRoundsCons(r: nat, total: nat)
    requires r < total
    ensures LaterRounds(r, total) == EmptyRound(r + 1, Power2(total - r - 1)) + LaterRounds(r + 1, total)
    ensures Power2(total - r) == 2 * Power2(total - r - 1)
  {
  }

  lemma JoinCounts(a: seq<Matchup>, b: seq<Matchup>, m: nat, n: nat)
    requires |a| == m && NonByes(a) == m && |b| == n && NonByes(b) == n
    ensures |a + b| == m + n && NonByes(a + b) == m + n
  {
    NonByesConcat(a, b);
  }

  lemma {:induction false} LaterCounts(r: nat, total: nat)
    requires r <= total
    ensures |LaterRounds(r, total)| == Power2(total - r) - 1 && NonByes(LaterRounds(r, total)) == Power2(total - r) - 1
    decreases total - r
  {
    if r < total {
      var count := Power2(total - r - 1);
      LaterCounts(r + 1, total);
      EmptyRoundCounts(r + 1, count);
      JoinCounts(EmptyRound(r + 1, count), LaterRounds(r + 1, total), count, count - 1);
      LaterRoundsCons(r, total);
    }
  }

  lemma {:induction false} FirstRoundNonByes(ps: seq<string>, m: nat)
    requires |ps| >= 2 && m <= Half(|ps|)
    ensures NonByes(FirstRound(ps)[..m]) == if m <= Byes(|ps|) then 0 else m - Byes(|ps|)
    decreases m
  {
    Sizes(|ps|);
    if m > 0 {
      FirstRoundNonByes(ps, m - 1);
      assert FirstRound(ps)[..m][..m - 1] == FirstRound(ps)[..m - 1];
    }
  }

  lemma FirstRoundCounts(ps: seq<string>)
    requires |ps| >= 2
    ensures NonByes(FirstRound(ps)) == Half(|ps|) - Byes(|ps|)
  {
    Sizes(|ps|);
    FirstRoundNonByes(ps, Half(|ps|));
    assert FirstRound(ps)[..Half(|ps|)] == FirstRound(ps);
  }

  /** Over all rounds there are bracketSize - 1 matchups, and n - 1 of them are actually played. */
  lemma MatchupCounts(ps: seq<string>)
    requires |ps| >= 2
    ensures |BracketOf(ps).matchups| == Size(|ps|) - 1
    ensures NonByes(BracketOf(ps).matchups) == |ps| - 1
  {
    Sizes(|ps|);
    LaterCounts(1, Rounds(|ps|));
    FirstRoundCounts(ps);
    NonByesConcat(FirstRound(ps), LaterRounds(1, Rounds(|ps|)));
  }

  /** Where the matchups of round `r` begin in a list that starts with the round after `from`. */
  function RoundOffset(from: nat, total: nat, r: nat): int
    requires from < r <= total
  {
    Power2(total - from) - Power2(total - r + 1)
  }

  lemma {:induction false} LaterAt(from: nat, total: nat, r: nat, k: nat)
    requires from < r <= total && k < Power2(total - r)
    ensures
      var i := RoundOffset(from, total, r) + k;
      0 <= i < |LaterRounds(from, total)|
      && LaterRounds(from, total)[i] == Matchup(r, k + 1, None, None, None, false)
    decreases total - from
  {
    var here, rest := EmptyRound(from + 1, Power2(total - from - 1)), LaterRounds(from + 1, total);
    LaterRoundsCons(from, total);
    assert LaterRounds(from, total) == here + rest;
    if r == from + 1 {
      assert here[k] == Matchup(r, k + 1, None, None, None, false);
    } else {
      LaterAt(from + 1, total, r, k);
      assert LaterRounds(from, total)[|here| + (RoundOffset(from + 1, total, r) + k)]
          == rest[RoundOffset(from + 1, total, r) + k];
    }
  }

  /**
   The plan of the bracket: the rounds come one after the other, round `r` of `total` has
   2^(total - r) matchups, numbered from 1, and those after the first round are still open.
   */
  lemma MatchupsAreNumbered(ps: seq<string>, r: nat, k: nat)
    requires |ps| >= 2 && 1 <= r <= Rounds(|ps|) && k < Power2(Rounds(|ps|) - r)
    ensures
      var ms, total := BracketOf(ps).matchups, Rounds(|ps|);
      var i := RoundOffset(0, total, r) + k;
      && 0 <= i < |ms| && ms[i].round == r && ms[i].number == k + 1
      && (r > 1 ==> ms[i] == Matchup(r, k + 1, None, None, None, false))
  {
    var total := Rounds(|ps|);
    Sizes(|ps|);
    if r == 1 {
      assert FirstRound(ps)[k] == FirstRoundMatchup(ps, k);
    } else {
      LaterAt(1, total, r, k);
      assert Power2(total) == 2 * Power2(total - 1);
      assert BracketOf(ps).matchups[|FirstRound(ps)| + (RoundOffset(1, total, r) + k)]
          == LaterRounds(1, total)[RoundOffset(1, total, r) + k];
    }
  }
}
