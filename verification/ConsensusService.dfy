/**
 The consensus procedure on its two records, which are plain JavaScript objects: reading a
 name that was never written gives what every object inherits under that name, and a
 count that starts from an inherited function becomes text.
 */
module ConsensusService {
  import opened Text
  import opened Consensus

  // ------------------------------------------------------------------ plain objects

  const PROTO := "__proto__"

  /** What plain objects inherit: the names, and the text of the function or object under a name. */
  datatype Realm = Realm(names: set<string>, source: string -> string)

  /** The names every JavaScript realm gives to plain objects. */
  predicate Standard(realm: Realm) {
    realm.names == {
      "constructor", "hasOwnProperty", "isPrototypeOf", "propertyIsEnumerable", "toLocaleString", "toString", "valueOf",
      "__defineGetter__", "__defineSetter__", "__lookupGetter__", "__lookupSetter__", "__proto__"
    }
  }

  /** `Native(name)` is what is inherited under that name: a function, or the prototype itself. */
  datatype Value = Undefined | Number(n: int) | Words(s: string) | Native(name: string)

  /** The own properties of an object. */
  type Object = map<string, Value>

  function Get(o: Object, key: string, realm: Realm): Value {
    if key in o then o[key] else if key in realm.names then Native(key) else Undefined
  }

  /** Writing a number or a text under the name of the prototype has no effect. */
  function Put(o: Object, key: string, v: Value): Object {
    if key == PROTO then o else o[key := v]
  }

  /** `(v ?? 0) + 1`. */
  function PlusOne(v: Value, realm: Realm): Value {
    match v
    case Undefined => Number(1)
    case Number(n) => Number(n + 1)
    case Words(s) => Words(s + "1")
    case Native(name) => Words(realm.source(name) + "1")
  }

  /** `a < b`: two texts by code unit; a number against the text of a function is never smaller or greater. */
  predicate LessThan(a: Value, b: Value, realm: Realm) {
    match (a, b)
    case (Number(x), Number(y)) => x < y
    case (Words(x), Words(y)) => Less(x, y)
    case (Words(x), Native(y)) => Less(x, realm.source(y))
    case (Native(x), Words(y)) => Less(realm.source(x), y)
    case (Native(x), Native(y)) => Less(realm.source(x), realm.source(y))
    case _ => false
  }

  // -------------------------------------------------------------------- the records

  function TallyObject(ss: seq<Submission>, realm: Realm): Object {
    if ss == [] then map[]
    else
      var before := TallyObject(ss[..|ss| - 1], realm);
      var outcome := ss[|ss| - 1].outcome;
      Put(before, outcome, PlusOne(Get(before, outcome, realm), realm))
  }

  function EarliestObject(ss: seq<Submission>, realm: Realm): Object {
    if ss == [] then map[]
    else
      var before := EarliestObject(ss[..|ss| - 1], realm);
      var last := ss[|ss| - 1];
      var previous := Get(before, last.outcome, realm);
      if previous == Undefined || LessThan(Number(last.submittedAt), previous, realm)
      then Put(before, last.outcome, Number(last.submittedAt)) else before
  }

  /** The loop that fills the two records. */
  method TallySubmissions(submissions: seq<Submission>, realm: Realm)
    returns (tally: Object, earliest: Object)
    ensures tally == TallyObject(submissions, realm) && earliest == EarliestObject(submissions, realm)
  {
    tally, earliest := map[], map[];
    var i := 0;
    while i < |submissions|
      invariant 0 <= i <= |submissions|
      invariant tally == TallyObject(submissions[..i], realm) && earliest == EarliestObject(submissions[..i], realm)
    {
      var submission := submissions[i];
      assert submissions[..i + 1][..i] == submissions[..i];
      tally := Put(tally, submission.outcome, PlusOne(Get(tally, submission.outcome, realm), realm));
      var previous := Get(earliest, submission.outcome, realm);
      if previous == Undefined || LessThan(Number(submission.submittedAt), previous, realm) {
        earliest := Put(earliest, submission.outcome, Number(submission.submittedAt));
      }
      i := i + 1;
    }
    assert submissions[..|submissions|] == submissions;
  }

  // ----------------------------------------------------------------------- the scan

  predicate Ascending(os: seq<string>) {
    forall i, j :: 0 <= i < j < |os| ==> Less(os[i], os[j])
  }

  /** The keys of the tally in ascending order. */
  method SortedOutcomes(keys: set<string>) returns (sorted: seq<string>)
    ensures Ascending(sorted) && forall o :: o in sorted <==> o in keys
  {
    sorted := [];
    var rest := keys;
    while rest != {}
      invariant Ascending(sorted) && forall o :: o in keys <==> o in sorted || o in rest
      invariant forall i, o :: 0 <= i < |sorted| && o in rest ==> Less(sorted[i], o)
      decreases rest
    {
      var least := LeastOf(rest);
      sorted := sorted + [least];
      rest := rest - {least};
    }
  }

  method LeastOf(keys: set<string>) returns (least: string)
    requires keys != {}
    ensures least in keys && forall o :: o in keys && o != least ==> Less(least, o)
  {
    least :| least in keys;
    var rest := keys - {least};
    while rest != {}
      invariant least in keys && least !in rest && rest <= keys
      invariant forall o :: o in keys && o !in rest && o != least ==> Less(least, o)
      decreases rest
    {
      var o :| o in rest;
      rest := rest - {o};
      LessTotal(least, o);
      if Less(o, least) {
        forall p | p in keys && p !in rest && p != o && p != least ensures Less(o, p) {
          LessTransitive(o, least, p);
        }
        least := o;
      }
    }
  }

  datatype Best = Best(outcome: string, votes: Value, first: Value)

  /** One turn of the scan. */
  function Better(b: Best, outcome: string, votes: Value, first: Value, realm: Realm): Best {
    if LessThan(b.votes, votes, realm) then Best(outcome, votes, first)
    else if votes == b.votes
            && (LessThan(first, b.first, realm) || (first == b.first && Less(outcome, b.outcome)))
    then b.(outcome := outcome, first := first)
    else b
  }

  /** The best after the first `k` outcomes. */
  function Scan(tally: Object, earliest: Object, outcomes: seq<string>, k: nat, realm: Realm): Best
    requires outcomes != [] && k <= |outcomes|
  {
    if k == 0 then Best(outcomes[0], Get(tally, outcomes[0], realm), Get(earliest, outcomes[0], realm))
    else
      var o := outcomes[k - 1];
      Better(Scan(tally, earliest, outcomes, k - 1, realm), o, Get(tally, o, realm), Get(earliest, o, realm), realm)
  }

  /** The scan over the outcomes, keeping the best so far. */
  method PickWinner(tally: Object, earliest: Object, outcomes: seq<string>, realm: Realm)
    returns (w: Option<string>)
    ensures w == if outcomes == [] then None else Some(Scan(tally, earliest, outcomes, |outcomes|, realm).outcome)
  {
    if outcomes == [] { return None; }
    var winningOutcome := outcomes[0];
    var winningVotes, winningEarliest := Get(tally, winningOutcome, realm), Get(earliest, winningOutcome, realm);
    var i := 0;
    while i < |outcomes|
      invariant 0 <= i <= |outcomes|
      invariant Scan(tally, earliest, outcomes, i, realm) == Best(winningOutcome, winningVotes, winningEarliest)
    {
      var outcome := outcomes[i];
      var votes, first := Get(tally, outcome, realm), Get(earliest, outcome, realm);
      if LessThan(winningVotes, votes, realm) {
        winningOutcome, winningVotes, winningEarliest := outcome, votes, first;
      } else if votes == winningVotes {
        if LessThan(first, winningEarliest, realm) || (first == winningEarliest && Less(outcome, winningOutcome)) {
          winningOutcome, winningEarliest := outcome, first;
        }
      }
      i := i + 1;
    }
    return Some(winningOutcome);
  }

  // ------------------------------------------------------------ submissions in general

  /** No submission names an inherited property. */
  predicate Plain(ss: seq<Submission>, realm: Realm) {
    forall i :: 0 <= i < |ss| ==> ss[i].outcome !in realm.names
  }

  /** The tally has exactly the named outcomes and counts their submissions. */
  ghost predicate CountsVotes(ss: seq<Submission>, tally: Object) {
    && (forall o :: o in tally <==> Named(ss, o))
    && (forall o :: o in tally ==> tally[o] == Number(Votes(ss, o)))
  }

  /** The submissions that name no inherited property. */
  function PlainOnly(ss: seq<Submission>, realm: Realm): seq<Submission> {
    if ss == [] then []
    else
      var last := ss[|ss| - 1];
      PlainOnly(ss[..|ss| - 1], realm) + if last.outcome in realm.names then [] else [last]
  }

  lemma {:induction false} AllPlain(ss: seq<Submission>, realm: Realm)
    requires Plain(ss, realm)
    ensures PlainOnly(ss, realm) == ss
    decreases |ss|
  {
    if ss != [] {
      AllPlain(ss[..|ss| - 1], realm);
    }
  }

  lemma {:induction false} PlainOnlyNames(ss: seq<Submission>, realm: Realm, o: string)
    ensures Named(PlainOnly(ss, realm), o) <==> Named(ss, o) && o !in realm.names
    decreases |ss|
  {
    if ss != [] {
      var init, last := ss[..|ss| - 1], ss[|ss| - 1];
      assert ss == init + [last];
      PlainOnlyNames(init, realm, o);
      NamedSnoc(init, last, o);
      NamedSnoc(PlainOnly(init, realm), last, o);
      assert PlainOnly(init, realm) + [] == PlainOnly(init, realm);
    }
  }

  /** Under the names that are not inherited the object holds exactly the numbers of the map. */
  predicate Represents(o: Object, numbers: map<string, int>, realm: Realm) {
    && (forall k :: k in o && k !in realm.names ==> k in numbers)
    && (forall k :: k in numbers ==> k !in realm.names && k in o && o[k] == Number(numbers[k]))
  }

  lemma PlainTallyStep(o: Object, tally: map<string, nat>, s: Submission, realm: Realm)
    requires Represents(o, tally, realm) && PROTO in realm.names
    ensures
      Represents(Put(o, s.outcome, PlusOne(Get(o, s.outcome, realm), realm)),
                 if s.outcome in realm.names then tally else NextTally(tally, s), realm)
  {
  }

  lemma PlainEarliestStep(o: Object, earliest: map<string, int>, s: Submission, realm: Realm)
    requires Represents(o, earliest, realm) && PROTO in realm.names
    ensures
      var previous := Get(o, s.outcome, realm);
      Represents(if previous == Undefined || LessThan(Number(s.submittedAt), previous, realm)
                 then Put(o, s.outcome, Number(s.submittedAt)) else o,
                 if s.outcome in realm.names then earliest else NextEarliest(earliest, s), realm)
  {
  }

  /** Under plain names the records are those of the plain submissions alone. */
  lemma {:induction false} PlainRecords(ss: seq<Submission>, realm: Realm)
    returns (tally: map<string, nat>, earliest: map<string, int>)
    requires PROTO in realm.names
    ensures Tallied(PlainOnly(ss, realm), tally, earliest)
    ensures Represents(TallyObject(ss, realm), tally, realm) && Represents(EarliestObject(ss, realm), earliest, realm)
    decreases |ss|
  {
    if ss == [] {
      tally, earliest := map[], map[];
    } else {
      var init, last := ss[..|ss| - 1], ss[|ss| - 1];
      tally, earliest := PlainRecords(init, realm);
      PlainTallyStep(TallyObject(init, realm), tally, last, realm);
      PlainEarliestStep(EarliestObject(init, realm), earliest, last, realm);
      if last.outcome in realm.names {
        assert PlainOnly(ss, realm) == PlainOnly(init, realm);
      } else {
        TalliedSnoc(PlainOnly(init, realm), last, tally, earliest);
        tally, earliest := NextTally(tally, last), NextEarliest(earliest, last);
      }
    }
  }

  function Ones(n: nat): string {
    if n == 0 then "" else Ones(n - 1) + "1"
  }

  /** What is counted under an inherited name: its text with a digit for every submission. */
  function CountText(ss: seq<Submission>, o: string, realm: Realm): string {
    realm.source(o) + Ones(Votes(ss, o))
  }

  lemma OneMore(text: string, n: nat)
    ensures text + Ones(n) + "1" == text + Ones(n + 1)
  {
  }

  /** A count that starts from an inherited name is a text, or nothing at all. */
  lemma {:induction false} InheritedCount(ss: seq<Submission>, realm: Realm, o: string)
    requires o in realm.names
    ensures o in TallyObject(ss, realm) <==> Named(ss, o) && o != PROTO
    ensures o in TallyObject(ss, realm) ==> TallyObject(ss, realm)[o] == Words(CountText(ss, o, realm))
    decreases |ss|
  {
    if ss != [] {
      var init, last := ss[..|ss| - 1], ss[|ss| - 1];
      assert ss == init + [last];
      InheritedCount(init, realm, o);
      NamedSnoc(init, last, o);
      VotesSnoc(init, last, o);
      OneMore(realm.source(o), Votes(init, o));
      if !Named(init, o) {
        UnnamedHasNoVotes(init, o);
        assert realm.source(o) + "" == realm.source(o);
      }
    }
  }

  /** The earliest time of an inherited name is never written. */
  lemma {:induction false} InheritedEarliest(ss: seq<Submission>, realm: Realm, o: string)
    requires o in realm.names
    ensures o !in EarliestObject(ss, realm)
    decreases |ss|
  {
    if ss != [] {
      InheritedEarliest(ss[..|ss| - 1], realm, o);
    }
  }

  lemma PlainCounts(ss: seq<Submission>, realm: Realm)
    requires Plain(ss, realm) && PROTO in realm.names
    ensures CountsVotes(ss, TallyObject(ss, realm))
  {
    var tally, earliest := PlainRecords(ss, realm);
    AllPlain(ss, realm);
    forall o ensures o in TallyObject(ss, realm) <==> Named(ss, o) {
      TalliedAreNamed(ss, tally, earliest, o);
      if o in realm.names {
        InheritedCount(ss, realm, o);
      }
    }
    forall o | o in TallyObject(ss, realm) ensures o in tally && tally[o] == Votes(ss, o) {
      TalliedAreNamed(ss, tally, earliest, o);
    }
  }

  /**
   The exact condition: the tally has exactly the named outcomes, each with its number of
   submissions, if and only if no submission names a property that plain objects inherit.
   */
  lemma TalliesRightIff(ss: seq<Submission>, realm: Realm)
    requires PROTO in realm.names
    ensures CountsVotes(ss, TallyObject(ss, realm)) <==> Plain(ss, realm)
  {
    if Plain(ss, realm) {
      PlainCounts(ss, realm);
    } else {
      var i :| 0 <= i < |ss| && ss[i].outcome in realm.names;
      assert Named(ss, ss[i].outcome);
      InheritedCount(ss, realm, ss[i].outcome);
    }
  }

  // ------------------------------------------------------- the winner: a plain least label

  /** The records have the numbers of the maps, and texts under inherited names. */
  predicate Both(t: Object, tally: map<string, nat>, e: Object, earliest: map<string, int>, realm: Realm) {
    && Represents(t, tally, realm) && Represents(e, earliest, realm) && tally.Keys == earliest.Keys
    && forall o :: o in t && o in realm.names ==> t[o].Words?
  }

  /** `b` is `w` with its numbers. */
  predicate Holder(b: Best, tally: map<string, nat>, earliest: map<string, int>, w: string)
    requires tally.Keys == earliest.Keys
  {
    w in tally && b == Best(w, Number(tally[w]), Number(earliest[w]))
  }

  /** On numbers a turn keeps the better of the two by the tie-break rules. */
  lemma BetterKeepsWinner(b: Best, tally: map<string, nat>, earliest: map<string, int>, v: string, o: string,
                          realm: Realm)
    requires tally.Keys == earliest.Keys && Holder(b, tally, earliest, v) && o in tally
    ensures
      var w := Better(b, o, Number(tally[o]), Number(earliest[o]), realm).outcome;
      && Holder(Better(b, o, Number(tally[o]), Number(earliest[o]), realm), tally, earliest, w)
      && (w == v || w == o)
      && (w != v ==> Beats(tally[w], earliest[w], w, tally[v], earliest[v], v))
      && (w != o ==> Beats(tally[w], earliest[w], w, tally[o], earliest[o], o))
  {
    LessTotal(o, v);
  }

  lemma LeadsOn(tally: map<string, nat>, earliest: map<string, int>, v: string, w: string, seen: set<string>, o: string)
    requires tally.Keys == earliest.Keys && Leads(tally, earliest, v, seen) && w in tally && (w == v || w == o)
    requires w != v ==> Beats(tally[w], earliest[w], w, tally[v], earliest[v], v)
    requires o in tally && (w != o ==> Beats(tally[w], earliest[w], w, tally[o], earliest[o], o))
    ensures Leads(tally, earliest, w, seen + {o})
  {
    forall p | p in seen + {o} && p != w && p in tally
      ensures Beats(tally[w], earliest[w], w, tally[p], earliest[p], p)
    {
      if w != v && p != v && p != o {
        BeatsTransitive(tally[w], earliest[w], w, tally[v], earliest[v], v, tally[p], earliest[p], p);
      }
    }
  }

  /** A text is neither greater than a number nor equal to it. */
  lemma NumberStays(b: Best, o: string, votes: Value, first: Value, realm: Realm)
    requires b.votes.Number? && votes.Words?
    ensures Better(b, o, votes, first, realm) == b
  {
  }

  /** A turn of the scan on numbers among which there may be texts. */
  lemma TurnLeads(tally: map<string, nat>, earliest: map<string, int>, t: Object, e: Object, b: Best, o: string,
                  seen: set<string>, realm: Realm)
    requires Both(t, tally, e, earliest, realm) && o in t
    requires Holder(b, tally, earliest, b.outcome) && Leads(tally, earliest, b.outcome, seen)
    ensures
      var next := Better(b, o, Get(t, o, realm), Get(e, o, realm), realm);
      Holder(next, tally, earliest, next.outcome) && Leads(tally, earliest, next.outcome, seen + {o})
  {
    if o in realm.names {
      NumberStays(b, o, t[o], Get(e, o, realm), realm);
    } else {
      var next := Better(b, o, Number(tally[o]), Number(earliest[o]), realm);
      BetterKeepsWinner(b, tally, earliest, b.outcome, o, realm);
      LeadsOn(tally, earliest, b.outcome, next.outcome, seen, o);
    }
  }

  lemma {:induction false} ScanLeads(tally: map<string, nat>, earliest: map<string, int>, t: Object, e: Object,
                                     outcomes: seq<string>, k: nat, realm: Realm)
    requires Both(t, tally, e, earliest, realm)
    requires outcomes != [] && k <= |outcomes| && forall i :: 0 <= i < |outcomes| ==> outcomes[i] in t
    requires outcomes[0] !in realm.names
    ensures
      var b := Scan(t, e, outcomes, k, realm);
      Holder(b, tally, earliest, b.outcome) && Leads(tally, earliest, b.outcome, Seen(outcomes[..k]))
    decreases k
  {
    if k > 0 {
      ScanLeads(tally, earliest, t, e, outcomes, k - 1, realm);
      var o := outcomes[k - 1];
      TurnLeads(tally, earliest, t, e, Scan(t, e, outcomes, k - 1, realm), o, Seen(outcomes[..k - 1]), realm);
      SeenSnoc(outcomes, k);
    }
  }

  lemma SeenSnoc(outcomes: seq<string>, k: nat)
    requires 0 < k <= |outcomes|
    ensures Seen(outcomes[..k]) == Seen(outcomes[..k - 1]) + {outcomes[k - 1]}
  {
    assert outcomes[..k] == outcomes[..k - 1] + [outcomes[k - 1]];
  }

  function Seen(outcomes: seq<string>): set<string> {
    set o | o in outcomes
  }

  lemma PlainScanWins(ss: seq<Submission>, outcomes: seq<string>, realm: Realm)
    requires PROTO in realm.names && outcomes != [] && outcomes[0] !in realm.names
    requires forall o :: o in outcomes <==> o in TallyObject(ss, realm)
    ensures IsWinner(PlainOnly(ss, realm),
                     Scan(TallyObject(ss, realm), EarliestObject(ss, realm), outcomes, |outcomes|, realm).outcome)
  {
    var tally, earliest := PlainRecords(ss, realm);
    var t, e := TallyObject(ss, realm), EarliestObject(ss, realm);
    forall o | o in t && o in realm.names ensures t[o].Words? {
      InheritedCount(ss, realm, o);
    }
    ScanLeads(tally, earliest, t, e, outcomes, |outcomes|, realm);
    assert outcomes[..|outcomes|] == outcomes;
    var w := Scan(t, e, outcomes, |outcomes|, realm).outcome;
    assert Leads(tally, earliest, w, tally.Keys);
    LeaderWins(PlainOnly(ss, realm), tally, earliest, w);
  }

  // --------------------------------------------------- the winner: an inherited least label

  /** Among inherited names: the greater text, then the smaller function text, then the lesser name. */
  predicate TextBefore(ss: seq<Submission>, w: string, p: string, realm: Realm) {
    var x, y := CountText(ss, w, realm), CountText(ss, p, realm);
    var f, g := realm.source(w), realm.source(p);
    Less(y, x) || (y == x && (Less(f, g) || (f == g && Less(w, p))))
  }

  predicate TextLeads(ss: seq<Submission>, w: string, p: string, realm: Realm) {
    w == p || TextBefore(ss, w, p, realm)
  }

  lemma TextBeforeTransitive(ss: seq<Submission>, w: string, v: string, p: string, realm: Realm)
    requires TextBefore(ss, w, v, realm) && TextBefore(ss, v, p, realm)
    ensures TextBefore(ss, w, p, realm)
  {
    var x, y, z := CountText(ss, w, realm), CountText(ss, v, realm), CountText(ss, p, realm);
    if Less(z, y) && Less(y, x) {
      LessTransitive(z, y, x);
    }
    var f, g, h := realm.source(w), realm.source(v), realm.source(p);
    if Less(f, g) && Less(g, h) {
      LessTransitive(f, g, h);
    }
    if Less(w, v) && Less(v, p) {
      LessTransitive(w, v, p);
    }
  }

  lemma TextBeforeIrreflexive(ss: seq<Submission>, w: string, realm: Realm)
    ensures !TextBefore(ss, w, w, realm)
  {
    LessIrreflexive(CountText(ss, w, realm));
    LessIrreflexive(realm.source(w));
    LessIrreflexive(w);
  }

  /** `b` is the inherited name `v` with its text and the function itself for a time. */
  predicate TextHolder(b: Best, ss: seq<Submission>, v: string, realm: Realm) {
    v in realm.names && b == Best(v, Words(CountText(ss, v, realm)), Native(v))
  }

  /** On texts a turn keeps the one that leads; the names come in ascending order. */
  lemma BetterKeepsText(b: Best, ss: seq<Submission>, v: string, o: string, realm: Realm)
    requires TextHolder(b, ss, v, realm) && o in realm.names && (o == v || Less(v, o))
    ensures
      var next := Better(b, o, Words(CountText(ss, o, realm)), Native(o), realm);
      && TextHolder(next, ss, next.outcome, realm) && next.outcome in {v, o}
      && TextLeads(ss, next.outcome, v, realm) && TextLeads(ss, next.outcome, o, realm)
  {
    LessTotal(CountText(ss, v, realm), CountText(ss, o, realm));
    LessTotal(realm.source(v), realm.source(o));
    LessIrreflexive(CountText(ss, v, realm));
    LessIrreflexive(realm.source(v));
    LessIrreflexive(v);
  }

  lemma TextStays(b: Best, o: string, votes: Value, first: Value, realm: Realm)
    requires b.votes.Words? && votes.Number?
    ensures Better(b, o, votes, first, realm) == b
  {
  }

  /** The inherited `w` leads all inherited names in `seen`. */
  predicate LeadsSeen(ss: seq<Submission>, w: string, seen: set<string>, realm: Realm) {
    forall p :: p in seen && p in realm.names ==> TextLeads(ss, w, p, realm)
  }

  /** A turn of the scan on texts among which there may be numbers. */
  lemma TurnKeepsText(ss: seq<Submission>, b: Best, o: string, seen: set<string>, realm: Realm)
    requires PROTO in realm.names && o in TallyObject(ss, realm) && (o == b.outcome || Less(b.outcome, o))
    requires TextHolder(b, ss, b.outcome, realm) && LeadsSeen(ss, b.outcome, seen, realm)
    ensures
      var next := Better(b, o, Get(TallyObject(ss, realm), o, realm), Get(EarliestObject(ss, realm), o, realm), realm);
      && TextHolder(next, ss, next.outcome, realm) && next.outcome in {b.outcome, o}
      && LeadsSeen(ss, next.outcome, seen + {o}, realm)
  {
    if o in realm.names {
      InheritedCount(ss, realm, o);
      InheritedEarliest(ss, realm, o);
      BetterKeepsText(b, ss, b.outcome, o, realm);
      var next := Better(b, o, Words(CountText(ss, o, realm)), Native(o), realm);
      LeadsSeenOn(ss, next.outcome, b.outcome, seen, realm);
    } else {
      var tally, earliest := PlainRecords(ss, realm);
      TextStays(b, o, TallyObject(ss, realm)[o], Get(EarliestObject(ss, realm), o, realm), realm);
    }
  }

  lemma LeadsSeenOn(ss: seq<Submission>, w: string, v: string, seen: set<string>, realm: Realm)
    requires TextLeads(ss, w, v, realm) && LeadsSeen(ss, v, seen, realm)
    ensures LeadsSeen(ss, w, seen, realm)
  {
    forall p | p in seen && p in realm.names ensures TextLeads(ss, w, p, realm) {
      if w != v && v != p {
        TextBeforeTransitive(ss, w, v, p, realm);
      }
    }
  }

  lemma {:induction false} ScanTexts(ss: seq<Submission>, outcomes: seq<string>, k: nat, realm: Realm)
    requires PROTO in realm.names && outcomes != [] && k <= |outcomes| && outcomes[0] in realm.names
    requires Ascending(outcomes) && forall o :: o in outcomes ==> o in TallyObject(ss, realm)
    ensures
      var b := Scan(TallyObject(ss, realm), EarliestObject(ss, realm), outcomes, k, realm);
      && TextHolder(b, ss, b.outcome, realm) && b.outcome in Seen(outcomes[..if k == 0 then 1 else k])
      && LeadsSeen(ss, b.outcome, Seen(outcomes[..k]), realm)
    decreases k
  {
    if k == 0 {
      InheritedCount(ss, realm, outcomes[0]);
      InheritedEarliest(ss, realm, outcomes[0]);
    } else {
      ScanTexts(ss, outcomes, k - 1, realm);
      var b := Scan(TallyObject(ss, realm), EarliestObject(ss, realm), outcomes, k - 1, realm);
      SeenIsBefore(outcomes, k, b.outcome);
      TurnKeepsText(ss, b, outcomes[k - 1], Seen(outcomes[..k - 1]), realm);
      SeenSnoc(outcomes, k);
    }
  }

  lemma SeenIsBefore(outcomes: seq<string>, k: nat, o: string)
    requires Ascending(outcomes) && 0 < k <= |outcomes| && o in Seen(outcomes[..if k == 1 then 1 else k - 1])
    ensures o == outcomes[k - 1] || Less(o, outcomes[k - 1])
  {
  }

  // ------------------------------------------------------------------------ who wins

  /** The least of the named outcomes; the name of the prototype is never counted. */
  predicate LeastNamed(ss: seq<Submission>, least: string) {
    && Named(ss, least) && least != PROTO
    && forall i :: 0 <= i < |ss| && ss[i].outcome != PROTO && ss[i].outcome != least ==> Less(least, ss[i].outcome)
  }

  predicate LeadsTexts(ss: seq<Submission>, w: string, realm: Realm) {
    forall i :: 0 <= i < |ss| && ss[i].outcome in realm.names && ss[i].outcome != PROTO
      ==> TextLeads(ss, w, ss[i].outcome, realm)
  }

  /** If the least label is plain, the winner among the plain submissions; otherwise the leading inherited name. */
  ghost predicate Wins(ss: seq<Submission>, least: string, w: string, realm: Realm) {
    if least in realm.names
    then
      w in realm.names && Named(ss, w) && w != PROTO && LeadsTexts(ss, w, realm)
    else IsWinner(PlainOnly(ss, realm), w)
  }

  lemma TalliedIff(ss: seq<Submission>, realm: Realm, o: string)
    requires PROTO in realm.names
    ensures o in TallyObject(ss, realm) <==> Named(ss, o) && o != PROTO
  {
    if o in realm.names {
      InheritedCount(ss, realm, o);
    } else {
      var tally, earliest := PlainRecords(ss, realm);
      TalliedAreNamed(PlainOnly(ss, realm), tally, earliest, o);
      PlainOnlyNames(ss, realm, o);
    }
  }

  lemma LeastComesFirst(ss: seq<Submission>, least: string, outcomes: seq<string>)
    requires LeastNamed(ss, least) && Ascending(outcomes)
    requires forall o :: o in outcomes <==> Named(ss, o) && o != PROTO
    ensures outcomes != [] && outcomes[0] == least
  {
    assert least in outcomes;
    var i :| 0 <= i < |outcomes| && outcomes[i] == least;
    var first := outcomes[0];
    assert first in outcomes;
    var j :| 0 <= j < |ss| && ss[j].outcome == first;
    if first != least {
      LessTransitive(first, least, first);
      LessIrreflexive(first);
    }
  }

  /** What the scan over `outcomes` picks, whatever the submissions are. */
  predicate IsScanned(ss: seq<Submission>, outcomes: seq<string>, realm: Realm, w: Option<string>) {
    w == if outcomes == [] then None
         else Some(Scan(TallyObject(ss, realm), EarliestObject(ss, realm), outcomes, |outcomes|, realm).outcome)
  }

  /**
   Who wins, for all submissions: inherited names and plain labels are never compared with
   success, so the kind of the least label decides which of the two groups is decided.
   */
  lemma WhoWins(ss: seq<Submission>, least: string, outcomes: seq<string>, realm: Realm, w: Option<string>)
    requires PROTO in realm.names && LeastNamed(ss, least) && Ascending(outcomes)
    requires forall o :: o in outcomes <==> o in TallyObject(ss, realm)
    requires IsScanned(ss, outcomes, realm, w)
    ensures w.Some? && Wins(ss, least, w.value, realm)
  {
    forall o ensures o in outcomes <==> Named(ss, o) && o != PROTO {
      TalliedIff(ss, realm, o);
    }
    LeastComesFirst(ss, least, outcomes);
    if least in realm.names {
      ScanTexts(ss, outcomes, |outcomes|, realm);
      assert outcomes[..|outcomes|] == outcomes;
      forall i | 0 <= i < |ss| && ss[i].outcome in realm.names && ss[i].outcome != PROTO
        ensures TextLeads(ss, w.value, ss[i].outcome, realm)
      {
        assert Named(ss, ss[i].outcome);
        assert ss[i].outcome in outcomes;
      }
    } else {
      PlainScanWins(ss, outcomes, realm);
    }
  }

  /** Only submissions for the name of the prototype have no winner at all. */
  lemma NobodyWinsIff(ss: seq<Submission>, outcomes: seq<string>, realm: Realm, w: Option<string>)
    requires PROTO in realm.names && IsScanned(ss, outcomes, realm, w)
    requires forall o :: o in outcomes <==> o in TallyObject(ss, realm)
    ensures w == None <==> forall i :: 0 <= i < |ss| ==> ss[i].outcome == PROTO
  {
    forall i | 0 <= i < |ss| ensures ss[i].outcome in outcomes <==> ss[i].outcome != PROTO {
      TalliedIff(ss, realm, ss[i].outcome);
      assert Named(ss, ss[i].outcome);
    }
    if outcomes != [] {
      assert outcomes[0] in outcomes;
      TalliedIff(ss, realm, outcomes[0]);
      var i :| 0 <= i < |ss| && ss[i].outcome == outcomes[0];
    }
  }

  /** Plain submissions have their winner by the tie-break rules. */
  lemma ScanWins(ss: seq<Submission>, outcomes: seq<string>, realm: Realm)
    requires ss != [] && Plain(ss, realm) && PROTO in realm.names
    requires forall o :: o in outcomes <==> o in TallyObject(ss, realm)
    ensures outcomes != []
    ensures IsWinner(ss, Scan(TallyObject(ss, realm), EarliestObject(ss, realm), outcomes, |outcomes|, realm).outcome)
  {
    assert Named(ss, ss[0].outcome);
    TalliedIff(ss, realm, ss[0].outcome);
    assert ss[0].outcome in outcomes;
    assert outcomes[0] in outcomes;
    TalliedIff(ss, realm, outcomes[0]);
    PlainScanWins(ss, outcomes, realm);
    AllPlain(ss, realm);
  }

  // --------------------------------------------------------------------- the service

  datatype Agreement = Agreement(winningOutcome: Option<string>, tally: Object, quorumUsed: nat, totalSubmissions: nat)

  datatype Result = Agreed(value: Agreement) | QuorumNotMet(required: nat, received: nat)

  /** `resolveConsensus`; `minimumQuorum` is positive by construction of the service. */
  method ResolveConsensus(submissions: seq<Submission>, minimumQuorum: nat, realm: Realm)
    returns (r: Result)
    requires minimumQuorum > 0 && PROTO in realm.names
    ensures r.QuorumNotMet? <==> |submissions| < minimumQuorum
    ensures r.QuorumNotMet? ==> r == QuorumNotMet(minimumQuorum, |submissions|)
    ensures r.Agreed? ==> r.value.quorumUsed == minimumQuorum && r.value.totalSubmissions == |submissions|
    ensures r.Agreed? ==> (CountsVotes(submissions, r.value.tally) <==> Plain(submissions, realm))
    ensures r.Agreed? && Plain(submissions, realm) ==>
              r.value.winningOutcome.Some? && IsWinner(submissions, r.value.winningOutcome.value)
    ensures r.Agreed? ==>
              forall least :: LeastNamed(submissions, least) ==>
                r.value.winningOutcome.Some? && Wins(submissions, least, r.value.winningOutcome.value, realm)
    ensures r.Agreed? ==>
              exists outcomes ::
                && Ascending(outcomes) && (forall o :: o in outcomes <==> o in r.value.tally)
                && IsScanned(submissions, outcomes, realm, r.value.winningOutcome)
  {
    if |submissions| < minimumQuorum {
      return QuorumNotMet(minimumQuorum, |submissions|);
    }
    var tally, earliest := TallySubmissions(submissions, realm);
    var outcomes := SortedOutcomes(tally.Keys);
    var winner := PickWinner(tally, earliest, outcomes, realm);
    TalliesRightIff(submissions, realm);
    if Plain(submissions, realm) {
      ScanWins(submissions, outcomes, realm);
    }
    assert IsScanned(submissions, outcomes, realm, winner);
    forall least | LeastNamed(submissions, least)
      ensures winner.Some? && Wins(submissions, least, winner.value, realm)
    {
      WhoWins(submissions, least, outcomes, realm, winner);
    }
    return Agreed(Agreement(winner, tally, minimumQuorum, |submissions|));
  }

  // --------------------------------------------------------- when the winner is right

  lemma {:induction false} PlainOnlyMembers(ss: seq<Submission>, realm: Realm, x: Submission)
    ensures x in PlainOnly(ss, realm) <==> x in ss && x.outcome !in realm.names
    decreases |ss|
  {
    if ss != [] {
      var init, last := ss[..|ss| - 1], ss[|ss| - 1];
      PlainOnlyMembers(init, realm, x);
      assert ss == init + [last];
    }
  }

  lemma PlainOnlySnoc(ss: seq<Submission>, s: Submission, realm: Realm)
    ensures PlainOnly(ss + [s], realm) == PlainOnly(ss, realm) + if s.outcome in realm.names then [] else [s]
  {
    assert (ss + [s])[..|ss|] == ss;
  }

  lemma {:induction false} PlainOnlyVotes(ss: seq<Submission>, realm: Realm, o: string)
    requires o !in realm.names
    ensures Votes(PlainOnly(ss, realm), o) == Votes(ss, o)
    decreases |ss|
  {
    if ss != [] {
      var init, last := ss[..|ss| - 1], ss[|ss| - 1];
      assert ss == init + [last];
      PlainOnlyVotes(init, realm, o);
      OneMoreVote(init, last, realm, o);
    }
  }

  lemma OneMoreVote(ss: seq<Submission>, s: Submission, realm: Realm, o: string)
    requires o !in realm.names && Votes(PlainOnly(ss, realm), o) == Votes(ss, o)
    ensures Votes(PlainOnly(ss + [s], realm), o) == Votes(ss + [s], o)
  {
    VotesSnoc(ss, s, o);
    PlainOnlySnoc(ss, s, realm);
    if s.outcome in realm.names {
      assert PlainOnly(ss, realm) + [] == PlainOnly(ss, realm);
    } else {
      VotesSnoc(PlainOnly(ss, realm), s, o);
    }
  }

  lemma PlainOnlyEarliest(ss: seq<Submission>, realm: Realm, o: string, t: int)
    requires o !in realm.names && IsEarliest(PlainOnly(ss, realm), o, t)
    ensures IsEarliest(ss, o, t)
  {
    PlainOnlyMembers(ss, realm, Submission(o, t));
    forall i | 0 <= i < |ss| && ss[i].outcome == o ensures t <= ss[i].submittedAt {
      PlainOnlyMembers(ss, realm, ss[i]);
      assert ss[i] in PlainOnly(ss, realm);
    }
  }

  /** A winner with a plain label wins among the plain submissions. */
  lemma PlainWinnerStays(ss: seq<Submission>, realm: Realm, v: string)
    requires IsWinner(ss, v) && v !in realm.names
    ensures IsWinner(PlainOnly(ss, realm), v)
  {
    PlainOnlyNames(ss, realm, v);
    var plain := PlainOnly(ss, realm);
    forall o, tv, to | Named(plain, o) && o != v && IsEarliest(plain, v, tv) && IsEarliest(plain, o, to)
      ensures Beats(Votes(plain, v), tv, v, Votes(plain, o), to, o)
    {
      PlainOnlyNames(ss, realm, o);
      PlainOnlyVotes(ss, realm, v);
      PlainOnlyVotes(ss, realm, o);
      PlainOnlyEarliest(ss, realm, v, tv);
      PlainOnlyEarliest(ss, realm, o, to);
    }
  }

  lemma OneTextLeads(ss: seq<Submission>, v: string, w: string, realm: Realm)
    requires LeadsTexts(ss, v, realm) && LeadsTexts(ss, w, realm) && Named(ss, v) && Named(ss, w)
    requires v in realm.names && w in realm.names && v != PROTO && w != PROTO
    ensures v == w
  {
    assert TextLeads(ss, v, w, realm) && TextLeads(ss, w, v, realm);
    if v != w {
      TextBeforeTransitive(ss, v, w, v, realm);
      TextBeforeIrreflexive(ss, v, realm);
    }
  }

  /**
   When the outcome `w` of the code is the winner `v` of the rules, for all submissions:
   with a plain least label if and only if `v` is plain, with an inherited one if and only
   if `v` is inherited too and the text of its count leads.
   */
  lemma WinnerRightIff(ss: seq<Submission>, least: string, w: string, v: string, realm: Realm)
    requires PROTO in realm.names && LeastNamed(ss, least) && Wins(ss, least, w, realm) && IsWinner(ss, v)
    ensures
      w == v <==>
      if least in realm.names then v in realm.names && v != PROTO && LeadsTexts(ss, v, realm) else v !in realm.names
  {
    if least in realm.names {
      if v in realm.names && v != PROTO && LeadsTexts(ss, v, realm) {
        OneTextLeads(ss, v, w, realm);
      }
    } else {
      PlainOnlyNames(ss, realm, w);
      if v !in realm.names {
        PlainWinnerStays(ss, realm, v);
        WinnerIsUnique(PlainOnly(ss, realm), v, w);
      }
    }
  }

  // ------------------------------------------------------------------------ examples

  function OneAndTwo(a: string, b: string): seq<Submission> {
    [Submission(a, 1), Submission(b, 2), Submission(b, 3)]
  }

  /** One submission for the lesser label wins over two for the greater one if just one of them is inherited. */
  lemma OneBeatsTwo(a: string, b: string, outcomes: seq<string>, realm: Realm, w: Option<string>)
    requires PROTO in realm.names && Less(a, b) && a != PROTO && b != PROTO && (a in realm.names <==> b !in realm.names)
    requires Ascending(outcomes) && forall o :: o in outcomes <==> o in TallyObject(OneAndTwo(a, b), realm)
    requires IsScanned(OneAndTwo(a, b), outcomes, realm, w)
    ensures w == Some(a) && !IsWinner(OneAndTwo(a, b), a)
    ensures Votes(OneAndTwo(a, b), a) == 1 && Votes(OneAndTwo(a, b), b) == 2
  {
    var ss := OneAndTwo(a, b);
    LessIrreflexive(a);
    assert ss[0].outcome == a && Named(ss, a);
    assert LeastNamed(ss, a);
    WhoWins(ss, a, outcomes, realm, w);
    if a !in realm.names {
      PlainOnlyNames(ss, realm, w.value);
    }
    OneAgainstTwo(a, b);
  }

  /** "constructor" once wins over "yes" twice, and "a" once wins over "toString" twice. */
  lemma InheritedNameWins(realm: Realm, outcomes: seq<string>, w: Option<string>)
    requires Standard(realm) && Ascending(outcomes) && IsScanned(OneAndTwo("constructor", "yes"), outcomes, realm, w)
    requires forall o :: o in outcomes <==> o in TallyObject(OneAndTwo("constructor", "yes"), realm)
    ensures w == Some("constructor") && !IsWinner(OneAndTwo("constructor", "yes"), "constructor")
  {
    StandardNames(realm);
    OneBeatsTwo("constructor", "yes", outcomes, realm, w);
  }

  lemma InheritedNameLoses(realm: Realm, outcomes: seq<string>, w: Option<string>)
    requires Standard(realm) && Ascending(outcomes) && IsScanned(OneAndTwo("a", "toString"), outcomes, realm, w)
    requires forall o :: o in outcomes <==> o in TallyObject(OneAndTwo("a", "toString"), realm)
    ensures w == Some("a") && !IsWinner(OneAndTwo("a", "toString"), "a")
  {
    StandardNames(realm);
    OneBeatsTwo("a", "toString", outcomes, realm, w);
  }

  lemma StandardNames(realm: Realm)
    requires Standard(realm)
    ensures "constructor" in realm.names && "toString" in realm.names && PROTO in realm.names
    ensures "yes" !in realm.names && "a" !in realm.names
    ensures "constructor" != PROTO && "yes" != PROTO && "toString" != PROTO && "a" != PROTO
    ensures Less("constructor", "yes") && Less("a", "toString")
  {
    assert |"yes"| == 3 && |"a"| == 1 && |PROTO| == 9 && |"constructor"| == 11 && |"toString"| == 8;
    assert forall n :: n in realm.names ==> |n| > 3;
    assert "constructor"[0] == 'c' && "yes"[0] == 'y' && "a"[0] == 'a' && "toString"[0] == 't';
  }

  lemma OneAgainstTwo(a: string, b: string)
    requires a != b
    ensures Votes(OneAndTwo(a, b), a) == 1 && Votes(OneAndTwo(a, b), b) == 2 && !IsWinner(OneAndTwo(a, b), a)
  {
    var ss := OneAndTwo(a, b);
    assert ss == [] + [ss[0]] + [ss[1]] + [ss[2]];
    VotesSnoc([], ss[0], a);
    VotesSnoc([] + [ss[0]], ss[1], a);
    VotesSnoc([] + [ss[0]] + [ss[1]], ss[2], a);
    VotesSnoc([], ss[0], b);
    VotesSnoc([] + [ss[0]], ss[1], b);
    VotesSnoc([] + [ss[0]] + [ss[1]], ss[2], b);
    assert ss[0] == Submission(a, 1) && ss[1] == Submission(b, 2) && Named(ss, b);
    assert IsEarliest(ss, a, 1) && IsEarliest(ss, b, 2);
    assert !Beats(1, 1, a, 2, 2, b);
  }
}
