/**
 Disputes about resolved markets: three tiers linked by escalation, votes weighted by
 reputation, and finalization by quorum. Every request is one step on the dispute and
 vote tables; a rejected request leaves them as they are.
 */
module Disputes {
  import opened Text
  import Sla = DisputeSla

  const MAX_TIER := 3

  type Id = nat
  type MarketId = string

  datatype Status = Open | Review | Escalated | Resolved | Pending

  datatype Resolution = Upheld | Overturned

  datatype Dispute = Dispute(
    market: MarketId,
    status: Status,
    resolution: Option<Resolution>,
    byAdmin: bool,
    resolvedAt: Option<int>,
    tier: nat,
    quorum: int,
    escalatedFrom: Option<Id>,
    sla: Sla.Clock)

  datatype Vote = Vote(dispute: Id, address: string, outcome: Resolution, weight: nat)

  datatype Db = Db(disputes: map<Id, Dispute>, votes: seq<Vote>)

  datatype Config = Config(
    tier1Quorum: real,
    tierMultiplier: real,
    escalationWindowHours: real,
    initialReviewHours: int,
    sla: Sla.Config)

  datatype Error =
    | NotFound | NotResolvedMarket | WindowPassed | AlreadyRaised | NotPending | NoWallet
    | AlreadyVoted | InvalidTransition | TierLimit | TierNotGreater | TierSkipped
    | MissingResolvedAt | AlreadyEscalated

  datatype Result<+T> = Ok(value: T) | Err(error: Error)

  function Power(x: real, n: nat): real {
    if n == 0 then 1.0 else x * Power(x, n - 1)
  }

  /** The quorum of a tier, rounded to the nearest integer with halves upwards. */
  function QuorumForTier(cfg: Config, tier: nat): int
    requires tier >= 1
  {
    (cfg.tier1Quorum * Power(cfg.tierMultiplier, tier - 1) + 0.5).Floor
  }

  // -------------------------------------------------------------------- the checks

  function AllowedFrom(s: Status): set<Status> {
    match s
    case Open => {Review}
    case Pending => {Open, Review}
    case Review => {Escalated, Resolved}
    case Escalated => {Resolved}
    case Resolved => {Escalated}
  }

  predicate StatusAllowed(from: Status, to: Status) {
    from == to || to in AllowedFrom(from)
  }

  function TierCheck(current: int, target: int): Option<Error> {
    if current >= MAX_TIER || target > MAX_TIER then Some(TierLimit)
    else if target <= current then Some(TierNotGreater)
    else if target != current + 1 then Some(TierSkipped)
    else None
  }

  /**
   The ids of a dispute and of the tiers it was escalated from. The guard on the tier
   only makes the walk total; it is true in every reachable table.
   */
  function ChainIds(db: Db, id: Id): seq<Id>
    decreases if id in db.disputes then db.disputes[id].tier else 0
  {
    if id !in db.disputes || db.disputes[id].escalatedFrom.None? then [id]
    else
      var p := db.disputes[id].escalatedFrom.value;
      if p in db.disputes && db.disputes[p].tier < db.disputes[id].tier
      then [id] + ChainIds(db, p) else [id, p]
  }

  predicate HasVoted(db: Db, address: string, ids: seq<Id>) {
    exists i :: 0 <= i < |db.votes| && db.votes[i].address == address && db.votes[i].dispute in ids
  }

  // --------------------------------------------------------------------- the tally

  /** Summed weight of the votes of one dispute. */
  function Total(votes: seq<Vote>, id: Id): nat {
    if votes == [] then 0
    else Total(votes[..|votes| - 1], id) +
         if votes[|votes| - 1].dispute == id then votes[|votes| - 1].weight else 0
  }

  /** Summed weight of its votes to overturn. */
  function OverturnWeight(votes: seq<Vote>, id: Id): (w: nat)
    ensures w <= Total(votes, id)
  {
    if votes == [] then 0
    else OverturnWeight(votes[..|votes| - 1], id) +
         if votes[|votes| - 1].dispute == id && votes[|votes| - 1].outcome == Overturned
         then votes[|votes| - 1].weight else 0
  }

  /** The outcome with the greater weight; a tie upholds. */
  function Winner(votes: seq<Vote>, id: Id): Resolution {
    if OverturnWeight(votes, id) > Total(votes, id) - OverturnWeight(votes, id) then Overturned else Upheld
  }

  /** Close the dispute once the weight of its votes reaches the quorum. */
  function TryFinalize(d: Dispute, votes: seq<Vote>, id: Id, now: int): Dispute {
    if Total(votes, id) < d.quorum then d
    else d.(status := Resolved, resolution := Some(Winner(votes, id)), resolvedAt := Some(now))
  }

  // ---------------------------------------------------------------------- requests

  function Raise(db: Db, id: Id, market: MarketId, known: bool, resolved: bool, windowOpen: bool,
                 cfg: Config, now: int): Result<Db>
  {
    if !known then Err(NotFound)
    else if !resolved then Err(NotResolvedMarket)
    else if !windowOpen then Err(WindowPassed)
    else if exists e :: e in db.disputes && db.disputes[e].market == market then Err(AlreadyRaised)
    else Ok(db.(disputes := db.disputes[id :=
      Dispute(market, Pending, None, false, None, 1, QuorumForTier(cfg, 1), None,
              Sla.Started(now + cfg.initialReviewHours * Sla.HOUR_MS))]))
  }

  function ResolveByAdmin(db: Db, id: Id, resolution: Resolution, now: int): Result<Db> {
    if id !in db.disputes then Err(NotFound)
    else if db.disputes[id].status != Pending then Err(NotPending)
    else Ok(db.(disputes := db.disputes[id :=
      db.disputes[id].(status := Resolved, resolution := Some(resolution), byAdmin := true, resolvedAt := Some(now))]))
  }

  function CastVote(db: Db, id: Id, address: string, outcome: Resolution, reputation: int, now: int): Result<Db> {
    if id !in db.disputes then Err(NotFound)
    else if db.disputes[id].status != Pending then Err(NotPending)
    else if address == "" then Err(NoWallet)
    else if HasVoted(db, address, ChainIds(db, id)) then Err(AlreadyVoted)
    else
      var votes := db.votes + [Vote(id, address, outcome, if reputation > 0 then reputation else 0)];
      Ok(Db(db.disputes[id := TryFinalize(db.disputes[id], votes, id, now)], votes))
  }

  function ChangeStatus(db: Db, id: Id, to: Status): Result<Db> {
    if id !in db.disputes then Err(NotFound)
    else if !StatusAllowed(db.disputes[id].status, to) then Err(InvalidTransition)
    else Ok(db.(disputes := db.disputes[id := db.disputes[id].(status := to)]))
  }

  function EscalationCheck(d: Dispute, cfg: Config, now: int): Option<Error> {
    if d.status != Resolved then (if StatusAllowed(d.status, Escalated) then None else Some(InvalidTransition))
    else if d.resolvedAt.None? then Some(MissingResolvedAt)
    else if Sla.Hours(d.resolvedAt.value, now) > cfg.escalationWindowHours then Some(WindowPassed)
    else None
  }

  predicate HasChild(db: Db, id: Id) {
    exists e :: e in db.disputes && db.disputes[e].escalatedFrom == Some(id)
  }

  /** Escalate to the next tier: the tier closes as ESCALATED and a new PENDING dispute opens above it. */
  function Escalate(db: Db, id: Id, newId: Id, target: Option<int>, cfg: Config, now: int): Result<Db> {
    if id !in db.disputes then Err(NotFound)
    else
      var d := db.disputes[id];
      var next := if target.Some? then target.value else d.tier + 1;
      var tierError := TierCheck(d.tier, next);
      var statusError := EscalationCheck(d, cfg, now);
      if tierError.Some? then Err(tierError.value)
      else if statusError.Some? then Err(statusError.value)
      else if HasChild(db, id) then Err(AlreadyEscalated)
      else Ok(WithNextTier(db, id, newId, Dispute(d.market, Pending, None, false, None, next, QuorumForTier(cfg, next),
                                                  Some(id), Sla.Started(now + cfg.initialReviewHours * Sla.HOUR_MS))))
  }

  function WithNextTier(db: Db, id: Id, newId: Id, child: Dispute): Db
    requires id in db.disputes
  {
    db.(disputes := db.disputes[id := db.disputes[id].(status := Escalated)][newId := child])
  }

  /** The hourly sweep: every pending dispute is evaluated, nothing else changes. */
  function SlaSweep(db: Db, cfg: Config, now: int): Db {
    db.(disputes := map id | id in db.disputes ::
      if db.disputes[id].status == Pending
      then db.disputes[id].(sla := Sla.Evaluate(db.disputes[id].sla, now, cfg.sla).1)
      else db.disputes[id])
  }

  // ------------------------------------------------------------------------- steps

  datatype Step =
    | DoRaise(id: Id, market: MarketId, known: bool, resolved: bool, windowOpen: bool, now: int)
    | DoResolve(id: Id, resolution: Resolution, now: int)
    | DoVote(id: Id, address: string, outcome: Resolution, reputation: int, now: int)
    | DoChangeStatus(id: Id, status: Status)
    | DoEscalate(id: Id, newId: Id, target: Option<int>, now: int)
    | DoSweep(now: int)

  function Keep(db: Db, r: Result<Db>): Db {
    if r.Ok? then r.value else db
  }

  /** A new dispute takes an id that is not in use. */
  function Next(db: Db, step: Step, cfg: Config): Db {
    match step
    case DoRaise(id, market, known, resolved, windowOpen, now) =>
      if id in db.disputes then db else Keep(db, Raise(db, id, market, known, resolved, windowOpen, cfg, now))
    case DoResolve(id, resolution, now) => Keep(db, ResolveByAdmin(db, id, resolution, now))
    case DoVote(id, address, outcome, reputation, now) => Keep(db, CastVote(db, id, address, outcome, reputation, now))
    case DoChangeStatus(id, status) => Keep(db, ChangeStatus(db, id, status))
    case DoEscalate(id, newId, target, now) =>
      if newId in db.disputes then db else Keep(db, Escalate(db, id, newId, target, cfg, now))
    case DoSweep(now) => SlaSweep(db, cfg, now)
  }

  function Run(db: Db, steps: seq<Step>, cfg: Config): Db
    decreases |steps|
  {
    if steps == [] then db else Run(Next(db, steps[0], cfg), steps[1..], cfg)
  }

  const EMPTY := Db(map[], [])
}
