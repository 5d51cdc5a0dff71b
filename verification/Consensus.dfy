/** What the outcome is on which oracle submissions agree, with deterministic tie-breaks. */
module Consensus {
  import opened Text

  datatype Submission = Submission(outcome: string, submittedAt: int)

  // ------------------------------------------------------------- the specification

  /** How many submissions name `o`. */
  function Votes(ss: seq<Submission>, o: string): nat {
    if ss == [] then 0
    else Votes(ss[..|ss| - 1], o) + if ss[|ss| - 1].outcome == o then 1 else 0
  }

  predicate Named(ss: seq<Submission>, o: string) {
    exists i :: 0 <= i < |ss| && ss[i].outcome == o
  }

  /** `t` is the earliest time at which `o` was submitted. */
  predicate IsEarliest(ss: seq<Submission>, o: string, t: int) {
    && (exists i :: 0 <= i < |ss| && ss[i] == Submission(o, t))
    && (forall i :: 0 <= i < |ss| && ss[i].outcome == o ==> t <= ss[i].submittedAt)
  }

  /** The votes for the outcomes of a list, added up. */
  function TallySum(ss: seq<Submission>, os: seq<string>): nat {
    if os == [] then 0 else Votes(ss, os[0]) + TallySum(ss, os[1..])
  }

  /** (more votes, then an earlier first submission, then the lesser label) */
  predicate Beats(va: nat, ta: int, a: string, vb: nat, tb: int, b: string) {
    va > vb || (va == vb && (ta < tb || (ta == tb && Less(a, b))))
  }

  /** `w` beats every other named outcome. */
  ghost predicate IsWinner(ss: seq<Submission>, w: string) {
    && Named(ss, w)
    && forall o, tw, to :: Named(ss, o) && o != w && IsEarliest(ss, w, tw) && IsEarliest(ss, o, to) ==>
         Beats(Votes(ss, w), tw, w, Votes(ss, o), to, o)
  }

  // ------------------------------------------------------------------- the tallies

  /** The two records agree with the first part of the submissions. */
  predicate Tallied(ss: seq<Submission>, tally: map<string, nat>, earliest: map<string, int>) {
    && tally.Keys == earliest.Keys
    && (forall o :: o in tally ==> Entered(ss, o, tally[o], earliest[o]))
    && (forall i :: 0 <= i < |ss| ==> ss[i].outcome in tally)
  }

  lemma NamedSnoc(ss: seq<Submission>, s: Submission, o: string)
    ensures Named(ss + [s], o) <==> Named(ss, o) || s.outcome == o
  {
    var all := ss + [s];
    if Named(ss, o) {
      var i :| 0 <= i < |ss| && ss[i].outcome == o;
      assert all[i].outcome == o;
    }
    if s.outcome == o {
      assert all[|ss|].outcome == o;
    }
    if Named(all, o) && s.outcome != o {
      var i :| 0 <= i < |all| && all[i].outcome == o;
      assert ss[i].outcome == o;
    }
  }

  lemma VotesSnoc(ss: seq<Submission>, s: Submission, o: string)
    ensures Votes(ss + [s], o) == Votes(ss, o) + if s.outcome == o then 1 else 0
  {
    assert (ss + [s])[..|ss|] == ss;
  }

  lemma {:induction false} UnnamedHasNoVotes(ss: seq<Submission>, o: string)
    requires !Named(ss, o)
    ensures Votes(ss, o) == 0
  {
    if ss != [] {
      var init, last := ss[..|ss| - 1], ss[|ss| - 1];
      assert ss == init + [last];
      NamedSnoc(init, last, o);
      UnnamedHasNoVotes(init, o);
    }
  }

  lemma EarliestSnoc(ss: seq<Submission>, s: Submission, o: string, t: int)
    requires IsEarliest(ss, o, t)
    ensures IsEarliest(ss + [s], o, if s.outcome == o && s.submittedAt < t then s.submittedAt else t)
  {
    var all := ss + [s];
    var i :| 0 <= i < |ss| && ss[i] == Submission(o, t);
    assert all[i] == ss[i] && all[|ss|] == s;
  }

  /** One outcome's records agree with the submissions. */
  predicate Entered(ss: seq<Submission>, o: string, votes: nat, first: int) {
    Named(ss, o) && votes == Votes(ss, o) && IsEarliest(ss, o, first)
  }

  lemma EnteredSnoc(ss: seq<Submission>, s: Submission, o: string, votes: nat, first: int)
    requires Entered(ss, o, votes, first)
    ensures Entered(ss + [s], o, votes + (if s.outcome == o then 1 else 0),
                    if s.outcome == o && s.submittedAt < first then s.submittedAt else first)
  {
    NamedSnoc(ss, s, o);
    VotesSnoc(ss, s, o);
    EarliestSnoc(ss, s, o, first);
  }

  lemma EnteredFirst(ss: seq<Submission>, s: Submission)
    requires !Named(ss, s.outcome)
    ensures Entered(ss + [s], s.outcome, 1, s.submittedAt)
  {
    var all := ss + [s];
    NamedSnoc(ss, s, s.outcome);
    VotesSnoc(ss, s, s.outcome);
    UnnamedHasNoVotes(ss, s.outcome);
    assert all[|ss|] == Submission(s.outcome, s.submittedAt);
    assert forall i :: 0 <= i < |ss| ==> all[i] == ss[i] && ss[i].outcome != s.outcome;
  }

  /** The records after one more submission. */
  function NextTally(tally: map<string, nat>, s: Submission): map<string, nat> {
    tally[s.outcome := (if s.outcome in tally then tally[s.outcome] else 0) + 1]
  }

  function NextEarliest(earliest: map<string, int>, s: Submission): map<string, int> {
    if s.outcome !in earliest || s.submittedAt < earliest[s.outcome]
    then earliest[s.outcome := s.submittedAt] else earliest
  }

  lemma EntryAfter(ss: seq<Submission>, s: Submission, tally: map<string, nat>, earliest: map<string, int>, o: string)
    requires tally.Keys == earliest.Keys && o in NextTally(tally, s)
    requires if o in tally then Entered(ss, o, tally[o], earliest[o]) else !Named(ss, o)
    ensures Entered(ss + [s], o, NextTally(tally, s)[o], NextEarliest(earliest, s)[o])
  {
    if o in tally {
      EnteredSnoc(ss, s, o, tally[o], earliest[o]);
    } else {
      EnteredFirst(ss, s);
    }
  }

  lemma TalliedAreNamed(ss: seq<Submission>, tally: map<string, nat>, earliest: map<string, int>, o: string)
    requires Tallied(ss, tally, earliest)
    ensures if o in tally then Entered(ss, o, tally[o], earliest[o]) else !Named(ss, o)
  {
  }

  lemma AllTallied(ss: seq<Submission>, s: Submission, tally: map<string, nat>)
    requires forall i :: 0 <= i < |ss| ==> ss[i].outcome in tally
    ensures forall i :: 0 <= i < |ss + [s]| ==> (ss + [s])[i].outcome in NextTally(tally, s)
  {
  }

  lemma TalliedSnoc(ss: seq<Submission>, s: Submission, tally: map<string, nat>, earliest: map<string, int>)
    requires Tallied(ss, tally, earliest)
    ensures Tallied(ss + [s], NextTally(tally, s), NextEarliest(earliest, s))
  {
    var t', e' := NextTally(tally, s), NextEarliest(earliest, s);
    forall o | o in t' ensures Entered(ss + [s], o, t'[o], e'[o]) {
      TalliedAreNamed(ss, tally, earliest, o);
      EntryAfter(ss, s, tally, earliest, o);
    }
    AllTallied(ss, s, tally);
  }

  lemma BeatsTransitive(va: nat, ta: int, a: string, vb: nat, tb: int, b: string, vc: nat, tc: int, c: string)
    requires Beats(va, ta, a, vb, tb, b) && Beats(vb, tb, b, vc, tc, c)
    ensures Beats(va, ta, a, vc, tc, c)
  {
    if Less(a, b) && Less(b, c) {
      LessTransitive(a, b, c);
    }
  }

  /** `w` beats the outcomes in `seen`, by the records. */
  predicate Leads(tally: map<string, nat>, earliest: map<string, int>, w: string, seen: set<string>)
    requires tally.Keys == earliest.Keys
  {
    w in tally && forall o :: o in seen && o != w && o in tally ==>
      Beats(tally[w], earliest[w], w, tally[o], earliest[o], o)
  }

  /** The tally counts exactly the named outcomes. */
  ghost predicate TallyOf(ss: seq<Submission>, tally: map<string, nat>) {
    && (forall o :: o in tally <==> Named(ss, o))
    && (forall o :: o in tally ==> tally[o] == Votes(ss, o))
  }

  lemma EarliestUnique(ss: seq<Submission>, o: string, t: int, u: int)
    requires IsEarliest(ss, o, t) && IsEarliest(ss, o, u)
    ensures t == u
  {
    var i :| 0 <= i < |ss| && ss[i] == Submission(o, t);
    var j :| 0 <= j < |ss| && ss[j] == Submission(o, u);
    assert t <= ss[j].submittedAt && u <= ss[i].submittedAt;
  }

  lemma LeaderWins(ss: seq<Submission>, tally: map<string, nat>, earliest: map<string, int>, w: string)
    requires Tallied(ss, tally, earliest) && Leads(tally, earliest, w, tally.Keys)
    ensures IsWinner(ss, w) && TallyOf(ss, tally)
  {
    assert Entered(ss, w, tally[w], earliest[w]);
    forall o ensures o in tally <==> Named(ss, o) {
      if o in tally {
        assert Entered(ss, o, tally[o], earliest[o]);
      }
    }
    forall o, tw, to | Named(ss, o) && o != w && IsEarliest(ss, w, tw) && IsEarliest(ss, o, to)
      ensures Beats(Votes(ss, w), tw, w, Votes(ss, o), to, o)
    {
      assert Entered(ss, o, tally[o], earliest[o]);
      EarliestUnique(ss, w, tw, earliest[w]);
      EarliestUnique(ss, o, to, earliest[o]);
    }
  }

  // -------------------------------------------------------------------- the theorems

  lemma {:induction false} HasEarliest(ss: seq<Submission>, o: string) returns (t: int)
    requires Named(ss, o)
    ensures IsEarliest(ss, o, t)
    decreases |ss|
  {
    var init, last := ss[..|ss| - 1], ss[|ss| - 1];
    assert ss == init + [last];
    NamedSnoc(init, last, o);
    if Named(init, o) {
      t := HasEarliest(init, o);
      EarliestSnoc(init, last, o, t);
      if last.outcome == o && last.submittedAt < t {
        t := last.submittedAt;
      }
    } else {
      t := last.submittedAt;
    }
  }

  /** There is one winner. */
  lemma WinnerIsUnique(ss: seq<Submission>, a: string, b: string)
    requires IsWinner(ss, a) && IsWinner(ss, b)
    ensures a == b
  {
    if a != b {
      var ta := HasEarliest(ss, a);
      var tb := HasEarliest(ss, b);
      assert Beats(Votes(ss, a), ta, a, Votes(ss, b), tb, b);
      assert Beats(Votes(ss, b), tb, b, Votes(ss, a), ta, a);
      BeatsTransitive(Votes(ss, a), ta, a, Votes(ss, b), tb, b, Votes(ss, a), ta, a);
      LessIrreflexive(a);
    }
  }

  lemma PermutationSplits(ss: seq<Submission>, s: Submission) returns (i: nat)
    requires s in multiset(ss)
    ensures i < |ss| && ss[i] == s && multiset(ss[..i] + ss[i + 1..]) == multiset(ss) - multiset{s}
  {
    i :| 0 <= i < |ss| && ss[i] == s;
    assert ss == ss[..i] + [s] + ss[i + 1..];
    assert multiset(ss) == multiset(ss[..i]) + multiset{s} + multiset(ss[i + 1..]);
  }

  lemma {:induction false} VotesConcat(a: seq<Submission>, b: seq<Submission>, o: string)
    ensures Votes(a + b, o) == Votes(a, o) + Votes(b, o)
    decreases |b|
  {
    if b == [] {
      assert a + b == a;
    } else {
      assert (a + b)[..|a + b| - 1] == a + b[..|b| - 1];
      VotesConcat(a, b[..|b| - 1], o);
    }
  }

  lemma VotesWithout(b: seq<Submission>, i: nat, o: string)
    requires i < |b|
    ensures Votes(b, o) == Votes(b[..i] + b[i + 1..], o) + if b[i].outcome == o then 1 else 0
  {
    assert b == b[..i] + [b[i]] + b[i + 1..];
    VotesConcat(b[..i] + [b[i]], b[i + 1..], o);
    VotesConcat(b[..i], b[i + 1..], o);
    VotesSnoc(b[..i], b[i], o);
  }

  lemma {:induction false} VotesPermute(a: seq<Submission>, b: seq<Submission>, o: string)
    requires multiset(a) == multiset(b)
    ensures Votes(a, o) == Votes(b, o)
    decreases |a|
  {
    if a == [] {
      assert |multiset(b)| == 0;
    } else {
      var init, last := a[..|a| - 1], a[|a| - 1];
      assert a == init + [last];
      assert multiset(init) == multiset(a) - multiset{last};
      var i := PermutationSplits(b, last);
      VotesPermute(init, b[..i] + b[i + 1..], o);
      VotesWithout(b, i, o);
    }
  }

  predicate Distinct(os: seq<string>) {
    forall i, j :: 0 <= i < j < |os| ==> os[i] != os[j]
  }

  lemma {:induction false} TallySumSnoc(ss: seq<Submission>, s: Submission, os: seq<string>)
    requires Distinct(os)
    ensures TallySum(ss + [s], os) == TallySum(ss, os) + if s.outcome in os then 1 else 0
    decreases |os|
  {
    if os != [] {
      VotesSnoc(ss, s, os[0]);
      TallySumSnoc(ss, s, os[1..]);
      assert os == [os[0]] + os[1..];
      assert os[0] !in os[1..];
    }
  }

  /** The tallies of all named outcomes add up to the number of submissions. */
  lemma {:induction false} TalliesAddUp(ss: seq<Submission>, os: seq<string>)
    requires Distinct(os) && forall o :: Named(ss, o) ==> o in os
    ensures TallySum(ss, os) == |ss|
    decreases |ss|
  {
    if ss == [] {
      NothingToAdd(os);
    } else {
      var init, last := ss[..|ss| - 1], ss[|ss| - 1];
      assert ss == init + [last];
      forall o | Named(init, o) ensures o in os {
        NamedSnoc(init, last, o);
      }
      assert Named(ss, last.outcome);
      TalliesAddUp(init, os);
      TallySumSnoc(init, last, os);
    }
  }

  lemma {:induction false} NothingToAdd(os: seq<string>)
    ensures TallySum([], os) == 0
  {
    if os != [] {
      NothingToAdd(os[1..]);
    }
  }

  lemma SameMembers(a: seq<Submission>, b: seq<Submission>, i: nat) returns (j: nat)
    requires multiset(a) == multiset(b) && i < |a|
    ensures j < |b| && b[j] == a[i]
  {
    assert a[i] in multiset(a);
    j :| 0 <= j < |b| && b[j] == a[i];
  }

  lemma WinnerPermutesOneWay(a: seq<Submission>, b: seq<Submission>, w: string)
    requires multiset(a) == multiset(b) && IsWinner(a, w)
    ensures IsWinner(b, w)
  {
    assert Named(b, w) by {
      var i :| 0 <= i < |a| && a[i].outcome == w;
      var j := SameMembers(a, b, i);
    }
    forall o, tw, to | Named(b, o) && o != w && IsEarliest(b, w, tw) && IsEarliest(b, o, to)
      ensures Beats(Votes(b, w), tw, w, Votes(b, o), to, o)
    {
      NamedPermutes(b, a, o);
      EarliestPermutes(b, a, w, tw);
      EarliestPermutes(b, a, o, to);
      VotesPermute(a, b, w);
      VotesPermute(a, b, o);
    }
  }

  lemma NamedPermutes(a: seq<Submission>, b: seq<Submission>, o: string)
    requires multiset(a) == multiset(b) && Named(a, o)
    ensures Named(b, o)
  {
    var i :| 0 <= i < |a| && a[i].outcome == o;
    var j := SameMembers(a, b, i);
  }

  lemma EarliestPermutes(a: seq<Submission>, b: seq<Submission>, o: string, t: int)
    requires multiset(a) == multiset(b) && IsEarliest(a, o, t)
    ensures IsEarliest(b, o, t)
  {
    var i :| 0 <= i < |a| && a[i] == Submission(o, t);
    var j := SameMembers(a, b, i);
    forall k | 0 <= k < |b| && b[k].outcome == o ensures t <= b[k].submittedAt {
      var m := SameMembers(b, a, k);
    }
  }

  /** The order in which submissions arrive does not matter: same winner, same tallies. */
  lemma ConsensusIgnoresOrder(a: seq<Submission>, b: seq<Submission>, v: string, w: string, o: string)
    requires multiset(a) == multiset(b) && IsWinner(a, v) && IsWinner(b, w)
    ensures v == w && Votes(a, o) == Votes(b, o) && |a| == |b|
  {
    WinnerPermutesOneWay(a, b, v);
    WinnerIsUnique(b, v, w);
    VotesPermute(a, b, o);
    assert |multiset(a)| == |multiset(b)|;
  }

  /**
   The winner by the rules: nobody has more votes, nobody with as many was submitted
   earlier, and nobody with as many and as early has a lesser label.
   */
  lemma WinnerFollowsRules(ss: seq<Submission>, w: string, o: string)
    requires IsWinner(ss, w) && Named(ss, o) && o != w
    ensures Votes(ss, o) <= Votes(ss, w)
    ensures forall tw, to :: IsEarliest(ss, w, tw) && IsEarliest(ss, o, to) && Votes(ss, o) == Votes(ss, w) ==>
              tw <= to && (tw == to ==> Less(w, o))
  {
    var tw := HasEarliest(ss, w);
    var to := HasEarliest(ss, o);
    assert Beats(Votes(ss, w), tw, w, Votes(ss, o), to, o);
  }
}
