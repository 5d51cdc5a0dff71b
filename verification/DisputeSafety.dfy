/** What every sequence of dispute requests keeps. */
module DisputeSafety {
  import opened Text
  import opened Disputes

  // ------------------------------------------------------------------- escalation

  /** A dispute is linked to the tier below it in the same market, which is no longer open for votes. */
  predicate Linked(db: Db, id: Id)
    requires id in db.disputes
  {
    var d := db.disputes[id];
    && 1 <= d.tier <= MAX_TIER
    && (d.tier == 1 <==> d.escalatedFrom.None?)
    && (d.escalatedFrom.Some? ==>
          var p := d.escalatedFrom.value;
          p in db.disputes && db.disputes[p].market == d.market
          && db.disputes[p].tier + 1 == d.tier && db.disputes[p].status != Pending)
  }

  predicate SamePlace(a: Dispute, b: Dispute) {
    a.market == b.market && a.tier == b.tier
  }

  predicate OnePerTier(db: Db) {
    forall a, b :: a in db.disputes && b in db.disputes && SamePlace(db.disputes[a], db.disputes[b]) ==> a == b
  }

  predicate PathInv(db: Db) {
    (forall id :: id in db.disputes ==> Linked(db, id)) && OnePerTier(db)
  }

  // ------------------------------------------------------------------------- votes

  predicate OneVotePerAddress(db: Db) {
    forall i, j :: 0 <= i < j < |db.votes| && db.votes[i].address == db.votes[j].address
      && db.votes[i].dispute in db.disputes && db.votes[j].dispute in db.disputes
      ==> db.disputes[db.votes[i].dispute].market != db.disputes[db.votes[j].dispute].market
  }

  predicate VotesKnown(db: Db) {
    forall i :: 0 <= i < |db.votes| ==> db.votes[i].dispute in db.disputes
  }

  predicate VoteInv(db: Db) {
    VotesKnown(db) && OneVotePerAddress(db)
  }

  /** The tally fits the status of the dispute. */
  predicate QuorumInv(d: Dispute, votes: seq<Vote>, id: Id) {
    && (d.status == Pending ==> d.resolution.None? && (Total(votes, id) == 0 || Total(votes, id) < d.quorum))
    && (d.resolution.Some? && !d.byAdmin ==> Total(votes, id) >= d.quorum && d.resolution.value == Winner(votes, id))
  }

  predicate Inv(db: Db, cfg: Config) {
    PathInv(db) && VoteInv(db) && Tallied(db) && Clocked(db, cfg)
  }

  predicate Tallied(db: Db) {
    forall id :: id in db.disputes ==> QuorumInv(db.disputes[id], db.votes, id)
  }

  predicate Clocked(db: Db, cfg: Config) {
    forall id :: id in db.disputes ==> Sla.ClockInv(db.disputes[id].sla, cfg.sla)
  }

  // ------------------------------------------------------------------- preservation

  /** The disputes stay where they are in their markets; none becomes pending again. */
  predicate SameShape(db: Db, db': Db) {
    && db'.disputes.Keys == db.disputes.Keys
    && forall id :: id in db.disputes ==>
      && db'.disputes[id].market == db.disputes[id].market
      && db'.disputes[id].tier == db.disputes[id].tier
      && db'.disputes[id].escalatedFrom == db.disputes[id].escalatedFrom
      && (db'.disputes[id].status == Pending ==> db.disputes[id].status == Pending)
  }

  lemma ShapeKeepsPath(db: Db, db': Db)
    requires PathInv(db) && SameShape(db, db')
    ensures PathInv(db')
  {
    forall id | id in db'.disputes ensures Linked(db', id) {
      assert Linked(db, id);
    }
  }

  /** Everyone of the same market at a lower or equal tier is in the chain of `id`. */
  lemma {:induction false} ChainHolds(db: Db, id: Id, e: Id)
    requires PathInv(db) && id in db.disputes
    ensures e in ChainIds(db, id) <==>
            e in db.disputes && db.disputes[e].market == db.disputes[id].market
            && db.disputes[e].tier <= db.disputes[id].tier
    decreases db.disputes[id].tier
  {
    assert Linked(db, id);
    var d := db.disputes[id];
    if e in db.disputes {
      assert Linked(db, e);
      assert SamePlace(db.disputes[e], d) ==> e == id;
    }
    if d.escalatedFrom.Some? {
      var p := d.escalatedFrom.value;
      assert ChainIds(db, id) == [id] + ChainIds(db, p);
      ChainHolds(db, p, e);
    }
  }

  /** Above a pending dispute there is no further tier. */
  lemma {:induction false} PendingIsLast(db: Db, id: Id, e: Id)
    requires PathInv(db) && id in db.disputes && db.disputes[id].status == Pending
    requires e in db.disputes && db.disputes[e].market == db.disputes[id].market
    ensures db.disputes[e].tier <= db.disputes[id].tier
    decreases db.disputes[e].tier
  {
    if db.disputes[e].tier > db.disputes[id].tier {
      assert Linked(db, e) && Linked(db, id);
      var p := db.disputes[e].escalatedFrom.value;
      PendingIsLast(db, id, p);
    }
  }

  /**
   From a pending dispute the walk down the escalation links finds every dispute of the
   market, so the check against it is a check against the whole chain.
   */
  lemma PendingChainIsComplete(db: Db, id: Id, e: Id)
    requires PathInv(db) && id in db.disputes && db.disputes[id].status == Pending
    ensures e in ChainIds(db, id) <==> e in db.disputes && db.disputes[e].market == db.disputes[id].market
  {
    ChainHolds(db, id, e);
    if e in db.disputes && db.disputes[e].market == db.disputes[id].market {
      PendingIsLast(db, id, e);
    }
  }

  // --- votes

  lemma {:induction false} TotalAppend(votes: seq<Vote>, v: Vote, id: Id)
    ensures Total(votes + [v], id) == Total(votes, id) + if v.dispute == id then v.weight else 0
    ensures OverturnWeight(votes + [v], id) ==
            OverturnWeight(votes, id) + if v.dispute == id && v.outcome == Overturned then v.weight else 0
  {
    assert (votes + [v])[..|votes|] == votes;
  }

  lemma {:induction false} NoVotesNoWeight(votes: seq<Vote>, id: Id)
    requires forall i :: 0 <= i < |votes| ==> votes[i].dispute != id
    ensures Total(votes, id) == 0
  {
    if votes != [] {
      NoVotesNoWeight(votes[..|votes| - 1], id);
    }
  }

  lemma VoteKeepsQuorum(db: Db, v: Vote, now: int, e: Id)
    requires e in db.disputes && v.dispute in db.disputes && db.disputes[v.dispute].status == Pending
    requires QuorumInv(db.disputes[e], db.votes, e)
    ensures
      var votes := db.votes + [v];
      var d := db.disputes[v.dispute];
      QuorumInv(if e == v.dispute then TryFinalize(d, votes, e, now) else db.disputes[e], votes, e)
  {
    TotalAppend(db.votes, v, e);
  }

  lemma VoteKeepsVotes(db: Db, v: Vote, db': Db)
    requires PathInv(db) && VoteInv(db) && SameShape(db, db') && db'.votes == db.votes + [v]
    requires v.dispute in db.disputes && db.disputes[v.dispute].status == Pending
    requires !HasVoted(db, v.address, ChainIds(db, v.dispute))
    ensures VoteInv(db')
  {
    forall i | 0 <= i < |db.votes| && db.votes[i].address == v.address
      ensures db.disputes[db.votes[i].dispute].market != db.disputes[v.dispute].market
    {
      PendingChainIsComplete(db, v.dispute, db.votes[i].dispute);
    }
  }

  lemma VoteKeepsTally(db: Db, v: Vote, now: int)
    requires v.dispute in db.disputes && db.disputes[v.dispute].status == Pending && Tallied(db)
    ensures
      var votes := db.votes + [v];
      Tallied(Db(db.disputes[v.dispute := TryFinalize(db.disputes[v.dispute], votes, v.dispute, now)], votes))
  {
    forall e | e in db.disputes
      ensures QuorumInv(if e == v.dispute then TryFinalize(db.disputes[e], db.votes + [v], e, now) else db.disputes[e],
                        db.votes + [v], e)
    {
      VoteKeepsQuorum(db, v, now, e);
    }
  }

  /** A vote that was accepted. */
  lemma VoteIs(db: Db, id: Id, address: string, outcome: Resolution, reputation: int, now: int) returns (v: Vote)
    requires CastVote(db, id, address, outcome, reputation, now).Ok?
    ensures id in db.disputes && db.disputes[id].status == Pending
    ensures v.dispute == id && v.address == address && !HasVoted(db, address, ChainIds(db, id))
    ensures
      var votes := db.votes + [v];
      CastVote(db, id, address, outcome, reputation, now)
      == Ok(Db(db.disputes[id := TryFinalize(db.disputes[id], votes, id, now)], votes))
  {
    v := Vote(id, address, outcome, if reputation > 0 then reputation else 0);
  }

  lemma FinalizingKeepsRest(db: Db, id: Id, votes: seq<Vote>, now: int, cfg: Config)
    requires id in db.disputes && Clocked(db, cfg)
    ensures
      var db' := Db(db.disputes[id := TryFinalize(db.disputes[id], votes, id, now)], votes);
      SameShape(db, db') && Clocked(db', cfg)
  {
  }

  lemma VoteKeepsInv(db: Db, id: Id, address: string, outcome: Resolution, reputation: int, now: int, cfg: Config)
    requires Inv(db, cfg)
    ensures Inv(Keep(db, CastVote(db, id, address, outcome, reputation, now)), cfg)
  {
    if CastVote(db, id, address, outcome, reputation, now).Ok? {
      var v := VoteIs(db, id, address, outcome, reputation, now);
      var votes := db.votes + [v];
      var db' := Db(db.disputes[id := TryFinalize(db.disputes[id], votes, id, now)], votes);
      FinalizingKeepsRest(db, id, votes, now, cfg);
      ShapeKeepsPath(db, db');
      VoteKeepsVotes(db, v, db');
      VoteKeepsTally(db, v, now);
    }
  }

  // --- new disputes

  lemma NewDisputeKeepsVotes(db: Db, db': Db, newId: Id)
    requires VoteInv(db) && newId !in db.disputes && db'.votes == db.votes
    requires db'.disputes.Keys == db.disputes.Keys + {newId}
    requires forall e :: e in db.disputes ==> db'.disputes[e].market == db.disputes[e].market
    ensures VoteInv(db') && Total(db'.votes, newId) == 0
  {
    forall i | 0 <= i < |db.votes| ensures db.votes[i].dispute != newId {
      assert db.votes[i].dispute in db.disputes;
    }
    NoVotesNoWeight(db.votes, newId);
  }

  lemma FirstTierKeepsPath(db: Db, id: Id, d: Dispute)
    requires PathInv(db) && id !in db.disputes && d.tier == 1 && d.escalatedFrom.None?
    requires forall e :: e in db.disputes ==> db.disputes[e].market != d.market
    ensures PathInv(db.(disputes := db.disputes[id := d]))
  {
    var db' := db.(disputes := db.disputes[id := d]);
    forall e | e in db'.disputes ensures Linked(db', e) {
      if e != id {
        assert Linked(db, e);
      }
    }
  }

  lemma RaiseKeepsInv(db: Db, id: Id, market: MarketId, known: bool, resolved: bool, windowOpen: bool, now: int,
                      cfg: Config)
    requires Inv(db, cfg) && id !in db.disputes
    ensures Inv(Keep(db, Raise(db, id, market, known, resolved, windowOpen, cfg, now)), cfg)
  {
    var r := Raise(db, id, market, known, resolved, windowOpen, cfg, now);
    if r.Ok? {
      NewDisputeKeepsVotes(db, r.value, id);
      Sla.StartedInv(now + cfg.initialReviewHours * Sla.HOUR_MS, cfg.sla);
      FirstTierKeepsPath(db, id, r.value.disputes[id]);
    }
  }

  /** No dispute of the market is at the tier above one that has no child. */
  lemma NextTierIsFree(db: Db, id: Id, e: Id)
    requires PathInv(db) && id in db.disputes && !HasChild(db, id)
    requires e in db.disputes && db.disputes[e].market == db.disputes[id].market
    ensures db.disputes[e].tier != db.disputes[id].tier + 1
  {
    assert Linked(db, e) && Linked(db, id);
    if db.disputes[e].escalatedFrom.Some? {
      var p := db.disputes[e].escalatedFrom.value;
      assert p != id && !SamePlace(db.disputes[p], db.disputes[id]);
    }
  }

  /** `child` is a new pending dispute one tier above `id`. */
  predicate IsNextTier(db: Db, id: Id, child: Dispute) {
    && id in db.disputes && db.disputes[id].tier < MAX_TIER
    && child.market == db.disputes[id].market && child.tier == db.disputes[id].tier + 1
    && child.escalatedFrom == Some(id) && child.status == Pending && child.resolution == None
  }

  lemma NextTierLinks(db: Db, id: Id, newId: Id, child: Dispute, e: Id)
    requires PathInv(db) && newId !in db.disputes && IsNextTier(db, id, child)
    requires e in WithNextTier(db, id, newId, child).disputes
    ensures Linked(WithNextTier(db, id, newId, child), e)
  {
    assert Linked(db, id);
    if e != newId {
      assert Linked(db, e);
    }
  }

  lemma NextTierKeepsPath(db: Db, id: Id, newId: Id, child: Dispute)
    requires PathInv(db) && newId !in db.disputes && IsNextTier(db, id, child) && !HasChild(db, id)
    ensures PathInv(WithNextTier(db, id, newId, child))
  {
    var db' := WithNextTier(db, id, newId, child);
    forall e | e in db'.disputes ensures Linked(db', e) {
      NextTierLinks(db, id, newId, child, e);
    }
    forall a, b | a in db'.disputes && b in db'.disputes
      && SamePlace(db'.disputes[a], db'.disputes[b]) ensures a == b
    {
      if a == newId && b != newId {
        NextTierIsFree(db, id, b);
      } else if b == newId && a != newId {
        NextTierIsFree(db, id, a);
      }
    }
  }

  lemma NextTierKeepsTally(db: Db, id: Id, newId: Id, child: Dispute)
    requires Tallied(db) && VotesKnown(db) && newId !in db.disputes && IsNextTier(db, id, child)
    ensures Tallied(WithNextTier(db, id, newId, child))
  {
    var db' := WithNextTier(db, id, newId, child);
    NoVotesNoWeight(db.votes, newId);
    forall e | e in db'.disputes ensures QuorumInv(db'.disputes[e], db'.votes, e) {
      if e != newId {
        assert QuorumInv(db.disputes[e], db.votes, e);
      }
    }
  }

  lemma NextTierKeepsClocks(db: Db, id: Id, newId: Id, child: Dispute, cfg: Config)
    requires Clocked(db, cfg) && id in db.disputes && Sla.ClockInv(child.sla, cfg.sla)
    ensures Clocked(WithNextTier(db, id, newId, child), cfg)
  {
  }

  lemma NextTierKeepsVotes(db: Db, id: Id, newId: Id, child: Dispute)
    requires VoteInv(db) && id in db.disputes && newId !in db.disputes
    ensures VoteInv(WithNextTier(db, id, newId, child))
  {
    NewDisputeKeepsVotes(db, WithNextTier(db, id, newId, child), newId);
  }

  lemma NextTierKeepsInv(db: Db, id: Id, newId: Id, child: Dispute, cfg: Config)
    requires Inv(db, cfg) && newId !in db.disputes && IsNextTier(db, id, child) && !HasChild(db, id)
    requires Sla.ClockInv(child.sla, cfg.sla)
    ensures Inv(WithNextTier(db, id, newId, child), cfg)
  {
    NextTierKeepsPath(db, id, newId, child);
    NextTierKeepsVotes(db, id, newId, child);
    NextTierKeepsTally(db, id, newId, child);
    NextTierKeepsClocks(db, id, newId, child, cfg);
  }

  lemma EscalateKeepsInv(db: Db, id: Id, newId: Id, target: Option<int>, now: int, cfg: Config)
    requires Inv(db, cfg) && newId !in db.disputes
    ensures Inv(Keep(db, Escalate(db, id, newId, target, cfg, now)), cfg)
  {
    var r := Escalate(db, id, newId, target, cfg, now);
    if r.Ok? {
      var child := r.value.disputes[newId];
      Sla.StartedInv(now + cfg.initialReviewHours * Sla.HOUR_MS, cfg.sla);
      assert r.value == WithNextTier(db, id, newId, child) && IsNextTier(db, id, child);
      NextTierKeepsInv(db, id, newId, child, cfg);
    }
  }

  // --- the rest

  lemma SweepKeepsInv(db: Db, now: int, cfg: Config)
    requires Inv(db, cfg)
    ensures Inv(SlaSweep(db, cfg, now), cfg)
  {
    var db' := SlaSweep(db, cfg, now);
    assert SameShape(db, db');
    ShapeKeepsPath(db, db');
    forall id | id in db'.disputes
      ensures QuorumInv(db'.disputes[id], db'.votes, id) && Sla.ClockInv(db'.disputes[id].sla, cfg.sla)
    {
      assert QuorumInv(db.disputes[id], db.votes, id);
      Sla.EvaluateKeepsInv(db.disputes[id].sla, now, cfg.sla);
    }
  }

  lemma StatusKeepsInv(db: Db, id: Id, d: Dispute, cfg: Config)
    requires Inv(db, cfg) && id in db.disputes && QuorumInv(d, db.votes, id) && d.sla == db.disputes[id].sla
    requires
      var was := db.disputes[id];
      SamePlace(d, was) && d.escalatedFrom == was.escalatedFrom && (d.status == Pending ==> was.status == Pending)
    ensures Inv(db.(disputes := db.disputes[id := d]), cfg)
  {
    var db' := db.(disputes := db.disputes[id := d]);
    assert SameShape(db, db');
    ShapeKeepsPath(db, db');
    SameMarketsKeepVotes(db, db');
  }

  lemma SameMarketsKeepVotes(db: Db, db': Db)
    requires VoteInv(db) && SameShape(db, db') && db'.votes == db.votes
    ensures VoteInv(db')
  {
  }

  lemma ResolveKeepsInv(db: Db, id: Id, resolution: Resolution, now: int, cfg: Config)
    requires Inv(db, cfg)
    ensures Inv(Keep(db, ResolveByAdmin(db, id, resolution, now)), cfg)
  {
    if ResolveByAdmin(db, id, resolution, now).Ok? {
      StatusKeepsInv(db, id, db.disputes[id].(status := Resolved, resolution := Some(resolution), byAdmin := true,
                                              resolvedAt := Some(now)), cfg);
    }
  }

  lemma StatusChangeKeepsQuorum(d: Dispute, status: Status, votes: seq<Vote>, id: Id)
    requires QuorumInv(d, votes, id) && StatusAllowed(d.status, status)
    ensures QuorumInv(d.(status := status), votes, id) && (status == Pending ==> d.status == Pending)
  {
  }

  lemma ChangeKeepsInv(db: Db, id: Id, status: Status, cfg: Config)
    requires Inv(db, cfg)
    ensures Inv(Keep(db, ChangeStatus(db, id, status)), cfg)
  {
    if ChangeStatus(db, id, status).Ok? {
      var d := db.disputes[id];
      assert QuorumInv(d, db.votes, id);
      StatusChangeKeepsQuorum(d, status, db.votes, id);
      StatusKeepsInv(db, id, db.disputes[id].(status := status), cfg);
    }
  }

  lemma NextKeepsInv(db: Db, step: Step, cfg: Config)
    requires Inv(db, cfg)
    ensures Inv(Next(db, step, cfg), cfg)
  {
    match step
    case DoRaise(id, market, known, resolved, windowOpen, now) =>
      if id !in db.disputes {
        RaiseKeepsInv(db, id, market, known, resolved, windowOpen, now, cfg);
      }
    case DoResolve(id, resolution, now) => ResolveKeepsInv(db, id, resolution, now, cfg);
    case DoVote(id, address, outcome, reputation, now) =>
      VoteKeepsInv(db, id, address, outcome, reputation, now, cfg);
    case DoChangeStatus(id, status) => ChangeKeepsInv(db, id, status, cfg);
    case DoEscalate(id, newId, target, now) =>
      if newId !in db.disputes {
        EscalateKeepsInv(db, id, newId, target, now, cfg);
      }
    case DoSweep(now) => SweepKeepsInv(db, now, cfg);
  }

  lemma {:induction false} RunKeepsInv(db: Db, steps: seq<Step>, cfg: Config)
    requires Inv(db, cfg)
    ensures Inv(Run(db, steps, cfg), cfg)
    decreases |steps|
  {
    if steps != [] {
      NextKeepsInv(db, steps[0], cfg);
      RunKeepsInv(Next(db, steps[0], cfg), steps[1..], cfg);
    }
  }
}
