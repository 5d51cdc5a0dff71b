/** The dispute service over its tables, request by request. */
module DisputesService {
  import opened Text
  import opened Disputes
  import opened DisputeSafety

  datatype SweepCounts = SweepCounts(approaching: nat, breached: nat, escalated: nat)

  /** The pending disputes on which a sweep has the outcome `o`. */
  function WithOutcome(db: Db, cfg: Config, now: int, o: Sla.Outcome): set<Id> {
    set id | id in db.disputes && db.disputes[id].status == Pending
             && Sla.Evaluate(db.disputes[id].sla, now, cfg.sla).0 == o
  }

  /** The first `n` votes that belong to `id`. */
  lemma TallyStep(votes: seq<Vote>, n: nat, id: Id)
    requires n < |votes|
    ensures Total(votes[..n + 1], id) == Total(votes[..n], id) + if votes[n].dispute == id then votes[n].weight else 0
    ensures OverturnWeight(votes[..n + 1], id) == OverturnWeight(votes[..n], id) +
            if votes[n].dispute == id && votes[n].outcome == Overturned then votes[n].weight else 0
  {
    assert votes[..n + 1] == votes[..n] + [votes[n]];
    TotalAppend(votes[..n], votes[n], id);
  }

  /** What the sweep reports of the pending disputes outside `todo`; an escalation is also a breach. */
  function CountsOf(db: Db, cfg: Config, now: int, todo: set<Id>): SweepCounts {
    var escalated := |WithOutcome(db, cfg, now, Sla.IsEscalated) - todo|;
    SweepCounts(|WithOutcome(db, cfg, now, Sla.IsApproaching) - todo|,
                |WithOutcome(db, cfg, now, Sla.IsBreached) - todo| + escalated, escalated)
  }

  function Counted(c: SweepCounts, o: Sla.Outcome): SweepCounts {
    match o
    case NoChange => c
    case IsApproaching => c.(approaching := c.approaching + 1)
    case IsBreached => c.(breached := c.breached + 1)
    case IsEscalated => c.(breached := c.breached + 1, escalated := c.escalated + 1)
  }

  lemma CountStep(xs: set<Id>, todo: set<Id>, id: Id)
    requires id in todo
    ensures |xs - (todo - {id})| == |xs - todo| + if id in xs then 1 else 0
  {
    if id in xs {
      assert xs - (todo - {id}) == (xs - todo) + {id};
    } else {
      assert xs - (todo - {id}) == xs - todo;
    }
  }

  /** The table when the disputes in `todo` are still to be swept. */
  function PartlySwept(db: Db, cfg: Config, now: int, todo: set<Id>): map<Id, Dispute> {
    map id | id in db.disputes :: if id in todo then db.disputes[id] else SlaSweep(db, cfg, now).disputes[id]
  }

  function WithClock(disputes: map<Id, Dispute>, id: Id, clock: Sla.Clock): map<Id, Dispute>
    requires id in disputes
  {
    disputes[id := disputes[id].(sla := clock)]
  }

  ghost predicate IsPendingSet(db: Db, pending: set<Id>) {
    forall id :: id in pending <==> id in db.disputes && db.disputes[id].status == Pending
  }

  lemma SweepBounds(db: Db, cfg: Config, now: int, pending: set<Id>)
    requires IsPendingSet(db, pending)
    ensures PartlySwept(db, cfg, now, pending) == db.disputes
    ensures PartlySwept(db, cfg, now, {}) == SlaSweep(db, cfg, now).disputes
    ensures CountsOf(db, cfg, now, pending) == SweepCounts(0, 0, 0)
  {
    forall o ensures |WithOutcome(db, cfg, now, o) - pending| == 0 {
      assert WithOutcome(db, cfg, now, o) - pending == {};
    }
  }

  lemma SweepRows(db: Db, cfg: Config, now: int, todo: set<Id>, id: Id)
    requires id in todo && id in db.disputes && db.disputes[id].status == Pending
    ensures WithClock(PartlySwept(db, cfg, now, todo), id, Sla.Evaluate(db.disputes[id].sla, now, cfg.sla).1)
            == PartlySwept(db, cfg, now, todo - {id})
  {
  }

  lemma SweepCount(db: Db, cfg: Config, now: int, todo: set<Id>, id: Id, o: Sla.Outcome)
    requires id in todo && id in db.disputes && db.disputes[id].status == Pending
    ensures |WithOutcome(db, cfg, now, o) - (todo - {id})| == |WithOutcome(db, cfg, now, o) - todo| +
            if o == Sla.Evaluate(db.disputes[id].sla, now, cfg.sla).0 then 1 else 0
  {
    CountStep(WithOutcome(db, cfg, now, o), todo, id);
  }

  lemma SweepStep(db: Db, cfg: Config, now: int, pending: set<Id>, todo: set<Id>, id: Id)
    requires IsPendingSet(db, pending) && todo <= pending && id in todo
    ensures id in PartlySwept(db, cfg, now, todo)
    ensures PartlySwept(db, cfg, now, todo)[id] == db.disputes[id]
    ensures WithClock(PartlySwept(db, cfg, now, todo), id, Sla.Evaluate(db.disputes[id].sla, now, cfg.sla).1)
            == PartlySwept(db, cfg, now, todo - {id})
    ensures CountsOf(db, cfg, now, todo - {id})
            == Counted(CountsOf(db, cfg, now, todo), Sla.Evaluate(db.disputes[id].sla, now, cfg.sla).0)
  {
    SweepRows(db, cfg, now, todo, id);
    SweepCount(db, cfg, now, todo, id, Sla.IsApproaching);
    SweepCount(db, cfg, now, todo, id, Sla.IsBreached);
    SweepCount(db, cfg, now, todo, id, Sla.IsEscalated);
  }

  // What a sweep has to do, told from the notices on record.

  function Approaching(db: Db, cfg: Config, now: int): set<Id> {
    set id | id in db.disputes && db.disputes[id].status == Pending
             && Sla.ApproachIsDue(db.disputes[id].sla, now, cfg.sla)
  }

  function Breaching(db: Db, cfg: Config, now: int): set<Id> {
    set id | id in db.disputes && db.disputes[id].status == Pending
             && Sla.BreachIsDue(db.disputes[id].sla, now, cfg.sla)
  }

  function Escalating(db: Db, cfg: Config, now: int): set<Id> {
    set id | id in Breaching(db, cfg, now) && db.disputes[id].sla.stage == Sla.InitialReview
  }

  function NoticesDue(c: Sla.Clock, now: int, cfg: Sla.Config): seq<Sla.Notice> {
    if Sla.BreachIsDue(c, now, cfg)
    then [Sla.Notice(Sla.Breached, Sla.Escalated, c.stage == Sla.InitialReview, now)]
    else if Sla.ApproachIsDue(c, now, cfg) then [Sla.Notice(Sla.Approaching, c.stage, false, now)] else []
  }

  /**
   A sweep from `db` to `db'` does what is due: it reports as many approaching, breached and
   newly escalated disputes as there are, sends exactly the notices that are due, and
   changes nothing but the clocks of pending disputes.
   */
  predicate DoesWhatIsDue(db: Db, db': Db, counts: SweepCounts, cfg: Config, now: int) {
    && counts.approaching == |Approaching(db, cfg, now)|
    && counts.breached == |Breaching(db, cfg, now)|
    && counts.escalated == |Escalating(db, cfg, now)|
    && db'.votes == db.votes && db'.disputes.Keys == db.disputes.Keys
    && forall id :: id in db.disputes ==> SweptAsDue(db.disputes[id], db'.disputes[id], cfg, now)
  }

  predicate SweptAsDue(d: Dispute, d': Dispute, cfg: Config, now: int) {
    if d.status == Pending
    then d' == d.(sla := d'.sla) && d'.sla.notices == d.sla.notices + NoticesDue(d.sla, now, cfg.sla)
    else d' == d
  }

  lemma OutcomeIs(db: Db, cfg: Config, now: int, id: Id)
    requires Clocked(db, cfg) && id in db.disputes
    ensures
      var c, o := db.disputes[id].sla, Sla.Evaluate(db.disputes[id].sla, now, cfg.sla).0;
      && (o == Sla.IsApproaching <==> Sla.ApproachIsDue(c, now, cfg.sla))
      && (o == Sla.IsEscalated <==> Sla.BreachIsDue(c, now, cfg.sla) && c.stage == Sla.InitialReview)
      && (o == Sla.IsBreached <==> Sla.BreachIsDue(c, now, cfg.sla) && c.stage == Sla.Escalated)
  {
    Sla.EvaluatesExactly(db.disputes[id].sla, now, cfg.sla);
  }

  lemma ApproachingAre(db: Db, cfg: Config, now: int)
    requires Clocked(db, cfg)
    ensures WithOutcome(db, cfg, now, Sla.IsApproaching) == Approaching(db, cfg, now)
  {
    forall id | id in db.disputes
      ensures id in WithOutcome(db, cfg, now, Sla.IsApproaching) <==> id in Approaching(db, cfg, now)
    {
      OutcomeIs(db, cfg, now, id);
    }
  }

  lemma BreachingAre(db: Db, cfg: Config, now: int)
    requires Clocked(db, cfg)
    ensures WithOutcome(db, cfg, now, Sla.IsEscalated) == Escalating(db, cfg, now)
    ensures WithOutcome(db, cfg, now, Sla.IsBreached) == Breaching(db, cfg, now) - Escalating(db, cfg, now)
  {
    forall id | id in db.disputes
      ensures id in WithOutcome(db, cfg, now, Sla.IsEscalated) <==> id in Escalating(db, cfg, now)
      ensures id in WithOutcome(db, cfg, now, Sla.IsBreached)
              <==> id in Breaching(db, cfg, now) && id !in Escalating(db, cfg, now)
    {
      OutcomeIs(db, cfg, now, id);
    }
  }

  lemma SplitCount(all: set<Id>, part: set<Id>, rest: set<Id>)
    requires part <= all && rest == all - part
    ensures |all| == |part| + |rest|
  {
    assert all == part + rest;
  }

  lemma CountsAreDue(db: Db, cfg: Config, now: int)
    requires Clocked(db, cfg)
    ensures
      CountsOf(db, cfg, now, {})
      == SweepCounts(|Approaching(db, cfg, now)|, |Breaching(db, cfg, now)|, |Escalating(db, cfg, now)|)
  {
    ApproachingAre(db, cfg, now);
    BreachingAre(db, cfg, now);
    forall o ensures WithOutcome(db, cfg, now, o) - {} == WithOutcome(db, cfg, now, o) {
    }
    SplitCount(Breaching(db, cfg, now), Escalating(db, cfg, now), WithOutcome(db, cfg, now, Sla.IsBreached));
  }

  lemma SweptOne(d: Dispute, cfg: Config, now: int)
    requires Sla.ClockInv(d.sla, cfg.sla)
    ensures SweptAsDue(d, if d.status == Pending then d.(sla := Sla.Evaluate(d.sla, now, cfg.sla).1) else d, cfg, now)
  {
    Sla.EvaluatesExactly(d.sla, now, cfg.sla);
  }

  /** The sweep of a table whose clocks are in order does what is due. */
  lemma SweepDoesWhatIsDue(db: Db, db': Db, counts: SweepCounts, cfg: Config, now: int)
    requires db' == SlaSweep(db, cfg, now) && counts == CountsOf(db, cfg, now, {})
    ensures Clocked(db, cfg) ==> DoesWhatIsDue(db, db', counts, cfg, now)
  {
    if Clocked(db, cfg) {
      CountsAreDue(db, cfg, now);
      forall id | id in db.disputes ensures SweptAsDue(db.disputes[id], db'.disputes[id], cfg, now) {
        SweptOne(db.disputes[id], cfg, now);
      }
    }
  }

  class Service {
    const cfg: Config
    var disputes: map<Id, Dispute>
    var votes: seq<Vote>

    constructor (cfg: Config)
      ensures Value() == EMPTY && this.cfg == cfg
    {
      this.cfg := cfg;
      disputes, votes := map[], [];
    }

    ghost function Value(): Db
      reads this
    {
      Db(disputes, votes)
    }

    /** The walk down the escalation links; it ends because the tier decreases. */
    method GetChainDisputeIds(id: Id) returns (ids: seq<Id>)
      requires PathInv(Value()) && id in disputes
      ensures ids == ChainIds(Value(), id)
    {
      ids := [id];
      var parentId := disputes[id].escalatedFrom;
      assert Linked(Value(), id);
      while parentId.Some?
        invariant parentId.Some? ==> parentId.value in disputes
        invariant ChainIds(Value(), id) == ids + if parentId.Some? then ChainIds(Value(), parentId.value) else []
        decreases if parentId.Some? then disputes[parentId.value].tier else 0
      {
        assert Linked(Value(), parentId.value);
        ids := ids + [parentId.value];
        parentId := disputes[parentId.value].escalatedFrom;
      }
    }

    /** Tally the votes of a dispute and close it when they reach its quorum. */
    method TryFinalizeByQuorum(id: Id, now: int)
      requires id in disputes
      modifies `disputes
      ensures disputes == old(disputes)[id := TryFinalize(old(disputes)[id], votes, id, now)]
    {
      var total, upheld, overturned := 0, 0, 0;
      var i := 0;
      while i < |votes|
        invariant 0 <= i <= |votes|
        invariant total == Total(votes[..i], id) && overturned == OverturnWeight(votes[..i], id)
        invariant upheld == total - overturned
        invariant disputes == old(disputes)
      {
        TallyStep(votes, i, id);
        if votes[i].dispute == id {
          total := total + votes[i].weight;
          if votes[i].outcome == Overturned {
            overturned := overturned + votes[i].weight;
          } else {
            upheld := upheld + votes[i].weight;
          }
        }
        i := i + 1;
      }
      assert votes[..|votes|] == votes;
      if total < disputes[id].quorum {
        assert disputes == disputes[id := disputes[id]];
        return;
      }
      var resolution := if overturned > upheld then Overturned else Upheld;
      disputes := disputes[id := disputes[id].(status := Resolved, resolution := Some(resolution),
                                               resolvedAt := Some(now))];
    }

    method Vote(id: Id, address: string, outcome: Resolution, reputation: int, now: int) returns (r: Result<Dispute>)
      requires PathInv(Value())
      modifies this
      ensures Value() == Next(old(Value()), DoVote(id, address, outcome, reputation, now), cfg)
      ensures r.Ok? <==> CastVote(old(Value()), id, address, outcome, reputation, now).Ok?
      ensures r.Ok? <==>
                && id in old(disputes) && old(disputes)[id].status == Pending && address != ""
                && forall i :: 0 <= i < |old(votes)| && old(votes)[i].address == address ==>
                     old(votes)[i].dispute !in ChainIds(old(Value()), id)
      ensures r.Ok? ==> id in disputes && r.value == disputes[id]
      ensures r.Ok? ==>
                votes == old(votes) + [Disputes.Vote(id, address, outcome, if reputation > 0 then reputation else 0)]
      ensures r.Ok? ==>
                var d := old(disputes)[id];
                disputes == old(disputes)[id := if Total(votes, id) < d.quorum then d else
                  d.(status := Resolved, resolvedAt := Some(now),
                     resolution := Some(if 2 * OverturnWeight(votes, id) > Total(votes, id)
                                        then Overturned else Upheld))]
      ensures r.Err? ==> disputes == old(disputes) && votes == old(votes)
    {
      if id !in disputes { return Err(NotFound); }
      if disputes[id].status != Pending { return Err(NotPending); }
      if address == "" { return Err(NoWallet); }
      var chainIds := GetChainDisputeIds(id);
      if exists i :: 0 <= i < |votes| && votes[i].address == address && votes[i].dispute in chainIds {
        return Err(AlreadyVoted);
      }
      var weight := if reputation > 0 then reputation else 0;
      votes := votes + [Disputes.Vote(id, address, outcome, weight)];
      TryFinalizeByQuorum(id, now);
      return Ok(disputes[id]);
    }

    method Create(id: Id, market: MarketId, known: bool, resolved: bool, windowOpen: bool, now: int)
      returns (r: Result<Dispute>)
      requires id !in disputes
      modifies `disputes
      ensures Value() == Next(old(Value()), DoRaise(id, market, known, resolved, windowOpen, now), cfg)
      ensures r.Ok? <==> id in disputes
      ensures r.Ok? <==>
                && known && resolved && windowOpen
                && forall e :: e in old(disputes) ==> old(disputes)[e].market != market
      ensures r == Err(NotFound) <==> !known
      ensures r == Err(NotResolvedMarket) <==> known && !resolved
      ensures r == Err(Error.WindowPassed) <==> known && resolved && !windowOpen
      ensures r.Ok? ==>
                && disputes == old(disputes)[id := r.value]
                && r.value == Dispute(market, Pending, None, false, None, 1, QuorumForTier(cfg, 1), None,
                                      Sla.Clock(Sla.InitialReview, now + cfg.initialReviewHours * 3600000,
                                                None, None, None, []))
    {
      if !known { return Err(NotFound); }
      if !resolved { return Err(NotResolvedMarket); }
      if !windowOpen { return Err(WindowPassed); }
      if exists e :: e in disputes && disputes[e].market == market { return Err(AlreadyRaised); }
      var deadline := now + cfg.initialReviewHours * Sla.HOUR_MS;
      var d := Dispute(market, Pending, None, false, None, 1, QuorumForTier(cfg, 1), None, Sla.Started(deadline));
      disputes := disputes[id := d];
      return Ok(d);
    }

    method Resolve(id: Id, resolution: Resolution, now: int) returns (r: Result<Dispute>)
      modifies `disputes
      ensures Value() == Next(old(Value()), DoResolve(id, resolution, now), cfg)
      ensures r.Ok? <==> id in old(disputes) && old(disputes)[id].status == Pending
      ensures r == Err(NotFound) <==> id !in old(disputes)
      ensures r.Ok? ==>
                disputes == old(disputes)[id := old(disputes)[id].(status := Resolved, resolution := Some(resolution),
                                                                   byAdmin := true, resolvedAt := Some(now))]
      ensures r.Err? ==> disputes == old(disputes)
    {
      if id !in disputes { return Err(NotFound); }
      var d := disputes[id];
      if d.status != Pending { return Err(NotPending); }
      d := d.(status := Resolved);
      d := d.(resolution := Some(resolution));
      d := d.(byAdmin := true);
      d := d.(resolvedAt := Some(now));
      disputes := disputes[id := d];
      return Ok(d);
    }

    method TransitionStatus(id: Id, to: Status) returns (r: Result<Dispute>)
      modifies `disputes
      ensures Value() == Next(old(Value()), DoChangeStatus(id, to), cfg)
      ensures r.Ok? <==>
                && id in old(disputes)
                && (old(disputes)[id].status == to
                    || (old(disputes)[id].status, to) in {(Open, Review), (Pending, Open), (Pending, Review),
                                                          (Review, Escalated), (Review, Resolved),
                                                          (Escalated, Resolved), (Resolved, Escalated)})
      ensures r == Err(NotFound) <==> id !in old(disputes)
      ensures r.Ok? ==> disputes == old(disputes)[id := old(disputes)[id].(status := to)]
      ensures r.Err? ==> disputes == old(disputes)
    {
      if id !in disputes { return Err(NotFound); }
      if disputes[id].status != to && to !in AllowedFrom(disputes[id].status) { return Err(InvalidTransition); }
      disputes := disputes[id := disputes[id].(status := to)];
      return Ok(disputes[id]);
    }

    method EscalateDispute(id: Id, newId: Id, target: Option<int>, now: int) returns (r: Result<Dispute>)
      requires newId !in disputes
      modifies `disputes
      ensures Value() == Next(old(Value()), DoEscalate(id, newId, target, now), cfg)
      ensures r.Ok? <==> newId in disputes
      ensures r.Ok? <==>
                && id in old(disputes)
                && (var d := old(disputes)[id];
                    && d.tier < 3 && (target.Some? ==> target.value == d.tier + 1)
                    && (d.status == Resolved ==>
                          && d.resolvedAt.Some?
                          && (now - d.resolvedAt.value) as real <= cfg.escalationWindowHours * 3600000.0)
                    && d.status in {Resolved, Review, Escalated})
                && forall e :: e in old(disputes) ==> old(disputes)[e].escalatedFrom != Some(id)
      ensures r.Ok? ==>
                var d := old(disputes)[id];
                && disputes == old(disputes)[id := d.(status := Escalated)][newId := r.value]
                && r.value == Dispute(d.market, Pending, None, false, None, d.tier + 1, QuorumForTier(cfg, d.tier + 1),
                                      Some(id), Sla.Clock(Sla.InitialReview, now + cfg.initialReviewHours * 3600000,
                                                          None, None, None, []))
      ensures r.Err? ==> disputes == old(disputes)
    {
      if id !in disputes { return Err(NotFound); }
      var d := disputes[id];
      if d.resolvedAt.Some? {
        Sla.HoursAre(d.resolvedAt.value, now, cfg.escalationWindowHours);
      }
      var nextTier := if target.Some? then target.value else d.tier + 1;
      var tierError := TierCheck(d.tier, nextTier);
      if tierError.Some? { return Err(tierError.value); }
      if d.status != Resolved && !StatusAllowed(d.status, Escalated) { return Err(InvalidTransition); }
      if d.status == Resolved {
        if d.resolvedAt.None? { return Err(MissingResolvedAt); }
        if Sla.Hours(d.resolvedAt.value, now) > cfg.escalationWindowHours { return Err(WindowPassed); }
      }
      if exists e :: e in disputes && disputes[e].escalatedFrom == Some(id) { return Err(AlreadyEscalated); }
      disputes := disputes[id := d.(status := Escalated)];
      var deadline := now + cfg.initialReviewHours * Sla.HOUR_MS;
      var child := Dispute(d.market, Pending, None, false, None, nextTier, QuorumForTier(cfg, nextTier), Some(id),
                           Sla.Started(deadline));
      disputes := disputes[newId := child];
      return Ok(child);
    }

    /** Evaluate one pending dispute and save its clock. */
    method SweepOne(id: Id, now: int) returns (outcome: Sla.Outcome)
      requires id in disputes
      modifies `disputes
      ensures disputes == WithClock(old(disputes), id, Sla.Evaluate(old(disputes)[id].sla, now, cfg.sla).1)
      ensures outcome == Sla.Evaluate(old(disputes)[id].sla, now, cfg.sla).0
    {
      var (o, clock) := Sla.Evaluate(disputes[id].sla, now, cfg.sla);
      disputes := disputes[id := disputes[id].(sla := clock)];
      return o;
    }

    /** The loop of the sweep: one pending dispute after the other, in any order. */
    method EvaluatePending(now: int) returns (counts: SweepCounts)
      modifies `disputes
      ensures Value() == SlaSweep(old(Value()), cfg, now)
      ensures counts == CountsOf(old(Value()), cfg, now, {})
    {
      ghost var db := Value();
      var todo := set id | id in disputes && disputes[id].status == Pending;
      ghost var pending := todo;
      counts := SweepCounts(0, 0, 0);
      SweepBounds(db, cfg, now, pending);
      while todo != {}
        invariant todo <= pending
        invariant disputes == PartlySwept(db, cfg, now, todo)
        invariant counts == CountsOf(db, cfg, now, todo)
        decreases todo
      {
        var id :| id in todo;
        SweepStep(db, cfg, now, pending, todo, id);
        var outcome := SweepOne(id, now);
        counts := Counted(counts, outcome);
        todo := todo - {id};
      }
    }

    /** The hourly sweep and what it reports. */
    method RunSlaCheck(now: int) returns (counts: SweepCounts)
      modifies `disputes
      ensures Value() == Next(old(Value()), DoSweep(now), cfg)
      ensures Clocked(old(Value()), cfg) ==> DoesWhatIsDue(old(Value()), Value(), counts, cfg, now)
    {
      ghost var db := Value();
      counts := EvaluatePending(now);
      SweepDoesWhatIsDue(db, Value(), counts, cfg, now);
    }
  }
}
