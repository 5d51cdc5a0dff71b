/** The promises of the dispute workflow, over whole runs. */
module DisputeTheorems {
  import opened Text
  import opened Disputes
  import opened DisputeSafety

  lemma Reachable(steps: seq<Step>, cfg: Config)
    ensures Inv(Run(EMPTY, steps, cfg), cfg)
  {
    RunKeepsInv(EMPTY, steps, cfg);
  }

  // ------------------------------------------------------------------- escalation

  /** The escalation path up to `id`, lowest tier first. */
  lemma {:induction false} PathTo(db: Db, id: Id) returns (path: seq<Id>)
    requires PathInv(db) && id in db.disputes
    ensures |path| == db.disputes[id].tier && path[|path| - 1] == id
    ensures forall i :: 0 <= i < |path| ==> OnPath(db, path, i)
    ensures forall e :: e in path <==>
      e in db.disputes && db.disputes[e].market == db.disputes[id].market && db.disputes[e].tier <= db.disputes[id].tier
    decreases db.disputes[id].tier
  {
    assert Linked(db, id);
    var from := db.disputes[id].escalatedFrom;
    if from.None? {
      path := [id];
    } else {
      var below := PathTo(db, from.value);
      path := below + [id];
      forall i | 0 <= i < |path| ensures OnPath(db, path, i) {
        assert i < |below| ==> OnPath(db, below, i);
      }
    }
    forall e ensures e in path <==>
      e in db.disputes && db.disputes[e].market == db.disputes[id].market && db.disputes[e].tier <= db.disputes[id].tier
    {
      if e in db.disputes {
        assert Linked(db, e);
        assert SamePlace(db.disputes[e], db.disputes[id]) ==> e == id;
      }
    }
  }

  /** Place `i` of a path: its tier, its link to the place below, and closed unless it is the last. */
  predicate OnPath(db: Db, path: seq<Id>, i: nat)
    requires i < |path|
  {
    && path[i] in db.disputes && db.disputes[path[i]].tier == i + 1
    && db.disputes[path[i]].escalatedFrom == (if i == 0 then None else Some(path[i - 1]))
    && (i < |path| - 1 ==> db.disputes[path[i]].status != Pending)
  }

  predicate Siblings(a: Dispute, b: Dispute) {
    a.escalatedFrom.Some? && a.escalatedFrom == b.escalatedFrom
  }

  /**
   After any run the disputes of a market form one path of at most three tiers: each is
   linked to the one below, each has at most one child, and only the last may be pending.
   */
  lemma EscalationPath(steps: seq<Step>, cfg: Config, m: MarketId) returns (path: seq<Id>)
    ensures
      var db := Run(EMPTY, steps, cfg);
      && |path| <= MAX_TIER
      && (forall e :: e in path <==> e in db.disputes && db.disputes[e].market == m)
      && (forall i :: 0 <= i < |path| ==> OnPath(db, path, i))
      && (forall a, b :: a in db.disputes && b in db.disputes && Siblings(db.disputes[a], db.disputes[b]) ==> a == b)
  {
    var db := Run(EMPTY, steps, cfg);
    Reachable(steps, cfg);
    var here := set e | e in db.disputes && db.disputes[e].market == m;
    path := [];
    if here != {} {
      var top := TopTier(db, here);
      assert Linked(db, top);
      path := PathTo(db, top);
    }
    assert forall e :: e in here <==> e in db.disputes && db.disputes[e].market == m;
    forall a, b | a in db.disputes && b in db.disputes && Siblings(db.disputes[a], db.disputes[b]) ensures a == b {
      assert Linked(db, a) && Linked(db, b);
      assert SamePlace(db.disputes[a], db.disputes[b]);
    }
  }

  lemma {:induction false} TopTier(db: Db, ids: set<Id>) returns (top: Id)
    requires ids != {} && ids <= db.disputes.Keys
    ensures top in ids && forall e :: e in ids ==> db.disputes[e].tier <= db.disputes[top].tier
    decreases |ids|
  {
    top :| top in ids;
    if ids != {top} {
      var rest := ids - {top};
      assert ids == {top} + rest;
      var other := TopTier(db, rest);
      if db.disputes[other].tier > db.disputes[top].tier {
        top := other;
      }
    }
  }

  /** A dispute that is not pending never is again, escalated ones included. */
  lemma {:induction false} NeverPendingAgain(db: Db, steps: seq<Step>, cfg: Config, id: Id)
    requires id in db.disputes && db.disputes[id].status != Pending
    ensures id in Run(db, steps, cfg).disputes && Run(db, steps, cfg).disputes[id].status != Pending
    decreases |steps|
  {
    if steps != [] {
      StaysClosed(db, steps[0], cfg, id);
      NeverPendingAgain(Next(db, steps[0], cfg), steps[1..], cfg, id);
    }
  }

  lemma StaysClosed(db: Db, step: Step, cfg: Config, id: Id)
    requires id in db.disputes && db.disputes[id].status != Pending
    ensures id in Next(db, step, cfg).disputes && Next(db, step, cfg).disputes[id].status != Pending
  {
  }

  // ------------------------------------------------------------------------- votes

  /**
   After any run no wallet address has two votes in the disputes of one market, although
   a vote is only checked against its own tier and the tiers below.
   */
  lemma OneVotePerChain(steps: seq<Step>, cfg: Config, i: nat, j: nat)
    requires i < j < |Run(EMPTY, steps, cfg).votes|
    requires Run(EMPTY, steps, cfg).votes[i].address == Run(EMPTY, steps, cfg).votes[j].address
    ensures
      var db := Run(EMPTY, steps, cfg);
      && db.votes[i].dispute in db.disputes && db.votes[j].dispute in db.disputes
      && db.disputes[db.votes[i].dispute].market != db.disputes[db.votes[j].dispute].market
  {
    Reachable(steps, cfg);
  }

  /** The weight behind the resolution of a dispute. */
  function WinningWeight(votes: seq<Vote>, id: Id): nat {
    if Winner(votes, id) == Overturned then OverturnWeight(votes, id) else Total(votes, id) - OverturnWeight(votes, id)
  }

  /**
   After any run: a pending dispute with a positive threshold has less weight than it; a
   dispute closed by its votes has reached it, went to the heavier side with ties upheld,
   and that side carries at least half the threshold.
   */
  lemma QuorumDecides(steps: seq<Step>, cfg: Config, id: Id)
    requires id in Run(EMPTY, steps, cfg).disputes
    ensures
      var db := Run(EMPTY, steps, cfg);
      var d := db.disputes[id];
      && (d.status == Pending && d.quorum > 0 ==> Total(db.votes, id) < d.quorum)
      && (d.resolution.Some? && !d.byAdmin ==>
            && Total(db.votes, id) >= d.quorum
            && (d.resolution.value == Overturned <==>
                OverturnWeight(db.votes, id) > Total(db.votes, id) - OverturnWeight(db.votes, id))
            && 2 * WinningWeight(db.votes, id) >= d.quorum)
  {
    Reachable(steps, cfg);
    var db := Run(EMPTY, steps, cfg);
    assert QuorumInv(db.disputes[id], db.votes, id);
  }

  /** `q` is `x` rounded to the nearest integer, halves upwards. */
  predicate IsRounded(q: int, x: real) {
    q as real - 0.5 <= x < q as real + 0.5
  }

  /** The threshold that the configuration asks of a tier. */
  function TierWeight(cfg: Config, tier: nat): real {
    if tier == 1 then cfg.tier1Quorum
    else if tier == 2 then cfg.tier1Quorum * cfg.tierMultiplier
    else cfg.tier1Quorum * (cfg.tierMultiplier * cfg.tierMultiplier)
  }

  lemma QuorumIsRounded(cfg: Config, tier: nat)
    requires 1 <= tier <= 3
    ensures IsRounded(QuorumForTier(cfg, tier), TierWeight(cfg, tier))
  {
    assert Power(cfg.tierMultiplier, 0) == 1.0;
    assert Power(cfg.tierMultiplier, 1) == cfg.tierMultiplier * 1.0;
    assert Power(cfg.tierMultiplier, 2) == cfg.tierMultiplier * Power(cfg.tierMultiplier, 1);
  }

  predicate QuorumsFit(db: Db, cfg: Config) {
    forall id :: id in db.disputes ==> db.disputes[id].tier >= 1
                                       && db.disputes[id].quorum == QuorumForTier(cfg, db.disputes[id].tier)
  }

  /** Only a request can open a dispute, and the others keep tiers and thresholds. */
  lemma NextFitsQuorums(db: Db, step: Step, cfg: Config)
    requires QuorumsFit(db, cfg)
    ensures QuorumsFit(Next(db, step, cfg), cfg)
  {
    match step
    case DoEscalate(id, newId, target, now) => EscalationFitsQuorums(db, id, newId, target, cfg, now);
    case _ =>
  }

  lemma EscalationFitsQuorums(db: Db, id: Id, newId: Id, target: Option<int>, cfg: Config, now: int)
    requires QuorumsFit(db, cfg)
    ensures QuorumsFit(Keep(db, Escalate(db, id, newId, target, cfg, now)), cfg)
  {
  }

  lemma {:induction false} RunFitsQuorums(db: Db, steps: seq<Step>, cfg: Config)
    requires QuorumsFit(db, cfg)
    ensures QuorumsFit(Run(db, steps, cfg), cfg)
    decreases |steps|
  {
    if steps != [] {
      NextFitsQuorums(db, steps[0], cfg);
      RunFitsQuorums(Next(db, steps[0], cfg), steps[1..], cfg);
    }
  }

  /**
   After any run the threshold of a dispute is the configured weight of its tier, rounded:
   the base for tier 1, and each higher tier the multiplier times more.
   */
  lemma QuorumFollowsTier(steps: seq<Step>, cfg: Config, id: Id)
    requires id in Run(EMPTY, steps, cfg).disputes
    ensures
      var d := Run(EMPTY, steps, cfg).disputes[id];
      1 <= d.tier <= 3 && IsRounded(d.quorum, TierWeight(cfg, d.tier))
  {
    RunFitsQuorums(EMPTY, steps, cfg);
    Reachable(steps, cfg);
    assert Linked(Run(EMPTY, steps, cfg), id);
    QuorumIsRounded(cfg, Run(EMPTY, steps, cfg).disputes[id].tier);
  }

  /** The SLA promises hold of every dispute after any mix of requests and sweeps. */
  lemma SlaInEveryRun(steps: seq<Step>, cfg: Config, id: Id)
    requires id in Run(EMPTY, steps, cfg).disputes
    ensures
      var c := Run(EMPTY, steps, cfg).disputes[id].sla;
      && (c.breachedAt.None? <==> c.stage == Sla.InitialReview)
      && Sla.EscalationCount(c.notices) <= 1
      && (forall st :: Sla.ApproachingCount(c.notices, st) <= 1)
      && Sla.Spaced(Sla.BreachTimes(c.notices), cfg.sla.reescalationHours)
  {
    Reachable(steps, cfg);
    assert Sla.ClockInv(Run(EMPTY, steps, cfg).disputes[id].sla, cfg.sla);
  }

  // --------------------------------------------------------------- zero-weight votes

  datatype Ballot = Ballot(address: string, outcome: Resolution, reputation: int, now: int)

  function Weight(b: Ballot): nat {
    if b.reputation > 0 then b.reputation else 0
  }

  /** The ballots cast one after the other. */
  function RunVotes(db: Db, id: Id, bs: seq<Ballot>): Db
    decreases |bs|
  {
    if bs == [] then db
    else RunVotes(Keep(db, CastVote(db, id, bs[0].address, bs[0].outcome, bs[0].reputation, bs[0].now)), id, bs[1..])
  }

  /** The ballots that carry weight. */
  function Weighty(bs: seq<Ballot>): seq<Ballot> {
    if bs == [] then []
    else if Weight(bs[0]) > 0 then [bs[0]] + Weighty(bs[1..]) else Weighty(bs[1..])
  }

  /** Which ballot finalizes a dispute that already has the weights `total` and `over`, and how. */
  function Finalizer(total: nat, over: nat, quorum: int, bs: seq<Ballot>): Option<(Ballot, Resolution)>
    requires over <= total
    decreases |bs|
  {
    if bs == [] then None
    else
      var t := total + Weight(bs[0]);
      var o := over + if bs[0].outcome == Overturned then Weight(bs[0]) else 0;
      if t >= quorum then Some((bs[0], if o > t - o then Overturned else Upheld))
      else Finalizer(t, o, quorum, bs[1..])
  }

  lemma {:induction false} FinalizerIgnoresZero(total: nat, over: nat, quorum: int, bs: seq<Ballot>)
    requires over <= total < quorum
    ensures Finalizer(total, over, quorum, bs) == Finalizer(total, over, quorum, Weighty(bs))
    decreases |bs|
  {
    if bs != [] {
      var t := total + Weight(bs[0]);
      var o := over + if bs[0].outcome == Overturned then Weight(bs[0]) else 0;
      if Weight(bs[0]) > 0 {
        assert Weighty(bs)[1..] == Weighty(bs[1..]);
      }
      if t < quorum {
        FinalizerIgnoresZero(t, o, quorum, bs[1..]);
      }
    }
  }

  /** Different wallets, none of which has voted in this chain. */
  predicate NewVoters(db: Db, id: Id, bs: seq<Ballot>) {
    && (forall i :: 0 <= i < |bs| ==> bs[i].address != "" && !HasVoted(db, bs[i].address, ChainIds(db, id)))
    && (forall i, j :: 0 <= i < j < |bs| ==> bs[i].address != bs[j].address)
  }

  lemma {:induction false} ChainOfShape(db: Db, db': Db, id: Id)
    requires SameShape(db, db')
    ensures ChainIds(db', id) == ChainIds(db, id)
    decreases if id in db.disputes then db.disputes[id].tier else 0
  {
    if id in db.disputes && db.disputes[id].escalatedFrom.Some? {
      var p := db.disputes[id].escalatedFrom.value;
      if p in db.disputes && db.disputes[p].tier < db.disputes[id].tier {
        ChainOfShape(db, db', p);
      }
    }
  }

  /** The row of a pending dispute after `bs`, given which ballot finalizes it. */
  function Closed(d: Dispute, f: Option<(Ballot, Resolution)>): Dispute {
    if f.None? then d
    else d.(status := Resolved, resolution := Some(f.value.1), resolvedAt := Some(f.value.0.now))
  }

  /** The weights after one more ballot. */
  lemma WeightsAfter(db: Db, id: Id, b: Ballot)
    ensures
      var votes := db.votes + [Vote(id, b.address, b.outcome, Weight(b))];
      && Total(votes, id) == Total(db.votes, id) + Weight(b)
      && OverturnWeight(votes, id) == OverturnWeight(db.votes, id) + if b.outcome == Overturned then Weight(b) else 0
  {
    TotalAppend(db.votes, Vote(id, b.address, b.outcome, Weight(b)), id);
  }

  /** The row after a ballot, from the weights that count it. */
  lemma RowAfter(d: Dispute, votes: seq<Vote>, id: Id, b: Ballot, total: nat, over: nat)
    requires Total(votes, id) == total && OverturnWeight(votes, id) == over
    ensures
      TryFinalize(d, votes, id, b.now)
      == if total >= d.quorum then Closed(d, Some((b, if over > total - over then Overturned else Upheld))) else d
  {
  }

  /** A vote that passes its checks. */
  lemma CastIs(db: Db, id: Id, b: Ballot)
    requires id in db.disputes && db.disputes[id].status == Pending
    requires b.address != "" && !HasVoted(db, b.address, ChainIds(db, id))
    ensures
      var votes := db.votes + [Vote(id, b.address, b.outcome, Weight(b))];
      CastVote(db, id, b.address, b.outcome, b.reputation, b.now)
      == Ok(Db(db.disputes[id := TryFinalize(db.disputes[id], votes, id, b.now)], votes))
  {
  }

  lemma FinalizedShape(db: Db, id: Id, votes: seq<Vote>, now: int)
    requires id in db.disputes
    ensures SameShape(db, Db(db.disputes[id := TryFinalize(db.disputes[id], votes, id, now)], votes))
  {
  }

  lemma OneVote(db: Db, id: Id, b: Ballot) returns (db': Db)
    requires id in db.disputes && db.disputes[id].status == Pending
    requires b.address != "" && !HasVoted(db, b.address, ChainIds(db, id))
    ensures CastVote(db, id, b.address, b.outcome, b.reputation, b.now) == Ok(db')
    ensures SameShape(db, db') && db'.votes == db.votes + [Vote(id, b.address, b.outcome, Weight(b))]
    ensures
      var t := Total(db.votes, id) + Weight(b);
      var o := OverturnWeight(db.votes, id) + if b.outcome == Overturned then Weight(b) else 0;
      && Total(db'.votes, id) == t && OverturnWeight(db'.votes, id) == o
      && db'.disputes[id] == (if t >= db.disputes[id].quorum
                              then Closed(db.disputes[id], Some((b, if o > t - o then Overturned else Upheld)))
                              else db.disputes[id])
  {
    var votes := db.votes + [Vote(id, b.address, b.outcome, Weight(b))];
    WeightsAfter(db, id, b);
    RowAfter(db.disputes[id], votes, id, b, Total(votes, id), OverturnWeight(votes, id));
    CastIs(db, id, b);
    FinalizedShape(db, id, votes, b.now);
    db' := Db(db.disputes[id := TryFinalize(db.disputes[id], votes, id, b.now)], votes);
  }

  lemma {:induction false} ClosedToVotes(db: Db, id: Id, bs: seq<Ballot>)
    requires id in db.disputes && db.disputes[id].status != Pending
    ensures RunVotes(db, id, bs) == db
    decreases |bs|
  {
    if bs != [] {
      ClosedToVotes(db, id, bs[1..]);
    }
  }

  lemma StillNew(db: Db, db': Db, id: Id, bs: seq<Ballot>, v: Vote)
    requires bs != [] && NewVoters(db, id, bs) && SameShape(db, db')
    requires db'.votes == db.votes + [v] && v.address == bs[0].address
    ensures NewVoters(db', id, bs[1..])
  {
    ChainOfShape(db, db', id);
    var rest := bs[1..];
    forall i | 0 <= i < |rest| ensures rest[i].address != "" && !HasVoted(db', rest[i].address, ChainIds(db', id)) {
      assert rest[i] == bs[i + 1] && bs[0].address != bs[i + 1].address;
      forall j | 0 <= j < |db'.votes| && db'.votes[j].address == rest[i].address
        ensures db'.votes[j].dispute !in ChainIds(db', id)
      {
        assert db'.votes[j] == db.votes[j];
        assert !HasVoted(db, bs[i + 1].address, ChainIds(db, id));
      }
    }
  }

  /** What `Finalizer` says of the ballots from a given table on. */
  function FinalizerOf(db: Db, id: Id, bs: seq<Ballot>): Option<(Ballot, Resolution)>
    requires id in db.disputes
  {
    Finalizer(Total(db.votes, id), OverturnWeight(db.votes, id), db.disputes[id].quorum, bs)
  }

  lemma FirstBallot(db: Db, id: Id, bs: seq<Ballot>) returns (db': Db)
    requires id in db.disputes && db.disputes[id].status == Pending && NewVoters(db, id, bs) && bs != []
    ensures RunVotes(db, id, bs) == RunVotes(db', id, bs[1..]) && id in db'.disputes
    ensures db'.disputes[id] == db.disputes[id] ==>
              NewVoters(db', id, bs[1..]) && FinalizerOf(db, id, bs) == FinalizerOf(db', id, bs[1..])
    ensures db'.disputes[id] != db.disputes[id] ==>
              FinalizerOf(db, id, bs).Some? && db'.disputes[id] == Closed(db.disputes[id], FinalizerOf(db, id, bs))
  {
    var b := bs[0];
    db' := OneVote(db, id, b);
    StillNew(db, db', id, bs, Vote(id, b.address, b.outcome, Weight(b)));
  }

  /** Casting the ballots does to the dispute what `Finalizer` says. */
  lemma {:induction false} VotesFollowFinalizer(db: Db, id: Id, bs: seq<Ballot>)
    requires id in db.disputes && db.disputes[id].status == Pending && NewVoters(db, id, bs)
    ensures id in RunVotes(db, id, bs).disputes
    ensures RunVotes(db, id, bs).disputes[id] == Closed(db.disputes[id], FinalizerOf(db, id, bs))
    decreases |bs|
  {
    if bs != [] {
      var db' := FirstBallot(db, id, bs);
      if db'.disputes[id] != db.disputes[id] {
        ClosedToVotes(db', id, bs[1..]);
      } else {
        VotesFollowFinalizer(db', id, bs[1..]);
      }
    }
  }

  /**
   Brigading with weightless votes is pointless: for a dispute below its quorum, two
   sequences of ballots that differ only in ballots without weight leave the same row
   behind, finalized (if at all) by the same ballot with the same resolution.
   */
  lemma ZeroWeightVotesChangeNothing(db: Db, id: Id, a: seq<Ballot>, b: seq<Ballot>)
    requires id in db.disputes && db.disputes[id].status == Pending && Total(db.votes, id) < db.disputes[id].quorum
    requires NewVoters(db, id, a) && NewVoters(db, id, b) && Weighty(a) == Weighty(b)
    ensures id in RunVotes(db, id, a).disputes && id in RunVotes(db, id, b).disputes
    ensures RunVotes(db, id, a).disputes[id] == RunVotes(db, id, b).disputes[id]
    ensures FinalizerOf(db, id, a) == FinalizerOf(db, id, b)
  {
    var t, o, q := Total(db.votes, id), OverturnWeight(db.votes, id), db.disputes[id].quorum;
    VotesFollowFinalizer(db, id, a);
    VotesFollowFinalizer(db, id, b);
    FinalizerIgnoresZero(t, o, q, a);
    FinalizerIgnoresZero(t, o, q, b);
  }
}
