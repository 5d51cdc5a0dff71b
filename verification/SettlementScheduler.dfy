/**
 The code that performs the steps: the user requests on market rows and one
 scheduler instance. Each method is proved against the row functions, and a whole
 sweep, retry pass or manual retry is proved to be a run of scheduler steps, so the
 theorems about runs apply to it.

 What the code cannot decide is a parameter: whether the advisory lock is free and the
 claim goes through (`lock`), whether the chain accepts a call (`chain`), whether the
 write after the call succeeds (`write`), and which rows a limited query returns.
 */
module SettlementScheduler {
  import opened Text
  import opened SettlementState
  import opened Settlement
  import opened SettlementSafety

  class Database {
    var now: int
    var markets: map<MarketId, Market>

    constructor (now: int, markets: map<MarketId, Market>)
      ensures this.now == now && this.markets == markets
    {
      this.now := now;
      this.markets := markets;
    }
  }

  // ------------------------------------------------------------ user requests

  method ProposeResolution(db: Database, m: MarketId, outcome: string, grace: Option<nat>, authorized: bool)
    returns (r: Result<Market>)
    modifies db`markets
    ensures r == if m in old(db.markets)
                 then Propose(old(db.markets)[m], outcome, grace, authorized, db.now) else Err(NotFound)
    ensures db.markets == if r.Ok? then old(db.markets)[m := r.value] else old(db.markets)
    ensures r == Err(NotFound) <==> m !in old(db.markets)
    ensures m in old(db.markets) ==>
              var k := old(db.markets)[m];
              && (r == Err(Forbidden) <==> !authorized)
              && (r == Err(MarketCancelled) <==> authorized && k.cancelled)
              && (r == Err(AlreadyResolved) <==> authorized && !k.cancelled && k.resolved)
              && (r.Ok? <==> && authorized && !k.cancelled && !k.resolved && k.state == Pending && k.endTime <= db.now
                             && outcome in k.options)
              && (r.Ok? ==> r.value == k.(state := Proposed, proposed := Some(outcome), proposedAt := Some(db.now),
                                          graceSeconds := r.value.graceSeconds))
              && (r.Ok? ==> r.value.graceSeconds == if grace.Some? then grace.value else k.graceSeconds)
  {
    if m !in db.markets { return Err(NotFound); }
    var market := db.markets[m];
    if !authorized { return Err(Forbidden); }
    if market.cancelled { return Err(MarketCancelled); }
    if market.resolved { return Err(AlreadyResolved); }
    if !CanTransition(market.state, Proposed) { return Err(IllegalTransition); }
    if db.now < market.endTime { return Err(NotEnded); }
    if outcome !in market.options { return Err(InvalidOutcome); }
    market := market.(state := Proposed);
    market := market.(proposed := Some(outcome));
    market := market.(proposedAt := Some(db.now));
    if grace.Some? {
      market := market.(graceSeconds := grace.value);
    }
    db.markets := db.markets[m := market];
    return Ok(market);
  }

  method ChallengeResolution(db: Database, m: MarketId) returns (r: Result<Market>)
    modifies db`markets
    ensures r == if m in old(db.markets) then Challenge(old(db.markets)[m], db.now) else Err(NotFound)
    ensures db.markets == if r.Ok? then old(db.markets)[m := r.value] else old(db.markets)
    ensures r == Err(NotFound) <==> m !in old(db.markets)
    ensures m in old(db.markets) ==>
              var k := old(db.markets)[m];
              && (r == Err(IllegalTransition) <==> k.state != Proposed)
              && (r.Ok? <==> k.state == Proposed && k.proposedAt.Some?
                             && db.now <= k.proposedAt.value + k.graceSeconds * 1000)
              && (r.Ok? ==> r.value == k.(state := Challenged))
  {
    if m !in db.markets { return Err(NotFound); }
    var market := db.markets[m];
    if !CanTransition(market.state, Challenged) { return Err(IllegalTransition); }
    if market.proposedAt.None? { return Err(MissingTimestamp); }
    var graceDeadline := market.proposedAt.value + market.graceSeconds * 1000;
    if db.now > graceDeadline { return Err(WindowClosed); }
    market := market.(state := Challenged);
    db.markets := db.markets[m := market];
    return Ok(market);
  }

  /** The row as an adjudication reads it, after its checks. */
  method ReadForAdjudication(db: Database, m: MarketId, outcome: string, admin: bool) returns (r: Result<Market>)
    ensures r.Ok? <==> m in db.markets && MayAdjudicate(db.markets[m], outcome, admin)
    ensures r.Ok? <==> admin && m in db.markets && db.markets[m].state in {Settling, Challenged}
                       && outcome in db.markets[m].options
    ensures r.Ok? ==> r.value == db.markets[m]
    ensures r == Err(Forbidden) <==> !admin
    ensures r == Err(NotFound) <==> admin && m !in db.markets
    ensures r.Err? ==> r.error in {Forbidden, NotFound, IllegalTransition, InvalidOutcome}
  {
    if !admin { return Err(Forbidden); }
    if m !in db.markets { return Err(NotFound); }
    var market := db.markets[m];
    if !CanTransition(market.state, Settled) { return Err(IllegalTransition); }
    if outcome !in market.options { return Err(InvalidOutcome); }
    return Ok(market);
  }

  /** What no step changes of a row between the reading and the saving of an adjudication. */
  predicate SameProposal(k: Market, k': Market) {
    && k'.options == k.options && k'.endTime == k.endTime && k'.cancelled == k.cancelled
    && k'.proposedAt == k.proposedAt && k'.graceSeconds == k.graceSeconds
  }

  /** Whatever runs between reading and saving a row that passed the checks, `SaveRow` may be called. */
  lemma {:induction false} ProposalStays(s: Sys, steps: seq<Step>, m: MarketId)
    requires m in s.markets && s.markets[m].state != Pending
    ensures m in Run(s, steps).markets && SameProposal(s.markets[m], Run(s, steps).markets[m])
    decreases |steps|
  {
    if steps != [] {
      NextGoesOnward(s, steps[0], m);
      ProposalStays(Next(s, steps[0]), steps[1..], m);
    }
  }

  /** Save the row that was read; the attempt and call logs are not columns of it. */
  method SaveRow(db: Database, m: MarketId, read: Market, outcome: string)
    requires m in db.markets && SameProposal(read, db.markets[m])
    modifies db`markets
    ensures db.markets == old(db.markets)[m := Saved(old(db.markets)[m], outcome, read.attemptCount, db.now)]
    ensures db.markets[m] == read.(state := Settled, proposed := Some(outcome), resolved := true,
                                   resolvedOutcome := Some(outcome), resolvedAt := Some(db.now),
                                   attempts := old(db.markets)[m].attempts, calls := old(db.markets)[m].calls)
  {
    var market := read;
    market := market.(state := Settled);
    market := market.(proposed := Some(outcome));
    market := market.(resolved := true);
    market := market.(resolvedOutcome := Some(outcome));
    market := market.(resolvedAt := Some(db.now));
    db.markets := db.markets[m := market.(attempts := db.markets[m].attempts, calls := db.markets[m].calls)];
  }

  /** The system of a database that nobody else is using. */
  ghost function Alone(db: Database): Sys
    reads db
  {
    Sys(db.now, db.markets, map[], map[], map[])
  }

  /** Sequentially executed, the request is its begin, call and save steps. */
  method ResolveChallenge(db: Database, m: MarketId, outcome: string, admin: bool, chainOk: bool)
    returns (r: Result<Market>, ghost steps: seq<Step>)
    modifies db`markets
    ensures Alone(db) == Run(old(Alone(db)), steps) && forall j :: 0 <= j < |steps| ==> IsAdminStep(steps[j])
    ensures r.Ok? <==> m in old(db.markets) && MayAdjudicate(old(db.markets)[m], outcome, admin) && chainOk
    ensures r.Ok? ==> m in db.markets && db.markets[m] == r.value && r.value.resolvedOutcome == Some(outcome)
    ensures r == Err(ChainFailed) <==>
            m in old(db.markets) && MayAdjudicate(old(db.markets)[m], outcome, admin) && !chainOk
  {
    steps := [];
    var read := ReadForAdjudication(db, m, outcome, admin);
    if read.Err? { return Err(read.error), []; }
    ghost var before := Alone(db);
    db.markets := db.markets[m := AdminCalled(db.markets[m], outcome, chainOk, db.now)];
    RequestSteps(before, m, outcome, chainOk);
    steps := [BeginAdjudication(0, m, outcome, true), CallForAdjudication(0, chainOk)];
    if !chainOk { return Err(ChainFailed), steps; }
    SaveRow(db, m, read.value, outcome);
    SaveStep(before, steps, Run(before, steps));
    steps := steps + [SaveAdjudication(0)];
    return Ok(db.markets[m]), steps;
  }

  /** The run of one adjudication up to its call. */
  lemma RequestSteps(s: Sys, m: MarketId, outcome: string, chainOk: bool)
    requires m in s.markets && MayAdjudicate(s.markets[m], outcome, true) && s.requests == map[]
    ensures
      var s2 := NextAdminCall(NextBegin(s, 0, m, outcome), 0, chainOk);
      && Run(s, [BeginAdjudication(0, m, outcome, true), CallForAdjudication(0, chainOk)]) == s2
      && s2.markets == s.markets[m := AdminCalled(s.markets[m], outcome, chainOk, s.now)]
      && s2.requests == if chainOk then map[0 := Request(m, outcome, s.markets[m].attemptCount, Succeeded)] else map[]
  {
    assert Next(s, BeginAdjudication(0, m, outcome, true)) == NextBegin(s, 0, m, outcome);
    RunTwo(s, BeginAdjudication(0, m, outcome, true), CallForAdjudication(0, chainOk));
  }

  lemma RunTwo(s: Sys, a: Step, b: Step)
    ensures Run(s, [a, b]) == Next(Next(s, a), b)
  {
    assert [a, b] == [a] + ([b] + []);
    RunCons(s, a, [b] + []);
    RunCons(Next(s, a), b, []);
  }

  lemma SaveStep(s: Sys, steps: seq<Step>, s2: Sys)
    requires Run(s, steps) == s2 && IsOpen(s2, 0, Succeeded) && s2.requests.Keys == {0}
    ensures
      var q := s2.requests[0];
      Run(s, steps + [SaveAdjudication(0)])
      == s2.(markets := s2.markets[q.market := Saved(s2.markets[q.market], q.outcome, q.counter, s2.now)],
             requests := map[])
  {
    RunAppend(s, steps, [SaveAdjudication(0)]);
    RunCons(s2, SaveAdjudication(0), []);
    assert [SaveAdjudication(0)] + [] == [SaveAdjudication(0)];
    assert s2.requests - {0} == map[];
  }

  // --------------------------------------------------------------- scheduler

  /** How many write-backs of `steps` finalized a settlement. */
  function Settlements(s: Sys, steps: seq<Step>): nat
    decreases |steps|
  {
    if steps == [] then 0
    else
      var step := steps[0];
      Settlements(Next(s, step), steps[1..]) +
      if step.WriteBack? && step.t in s.tasks && s.tasks[step.t].phase == Succeeded then 1 else 0
  }

  predicate AllScheduler(steps: seq<Step>) {
    forall j :: 0 <= j < |steps| ==> IsSchedulerStep(steps[j])
  }

  /** `steps` leads from `s` to `s'`, takes scheduler steps only and settles `n` times. */
  predicate Leads(s: Sys, steps: seq<Step>, s': Sys, n: nat) {
    AllScheduler(steps) && Run(s, steps) == s' && Settlements(s, steps) == n
  }

  lemma {:induction false} SettlementsAppend(s: Sys, a: seq<Step>, b: seq<Step>)
    ensures Settlements(s, a + b) == Settlements(s, a) + Settlements(Run(s, a), b)
    decreases |a|
  {
    if a == [] {
      assert a + b == b;
    } else {
      assert (a + b)[1..] == a[1..] + b;
      SettlementsAppend(Next(s, a[0]), a[1..], b);
    }
  }

  lemma LeadsOn(s: Sys, a: seq<Step>, s1: Sys, n: nat, b: seq<Step>, s2: Sys, p: nat)
    requires Leads(s, a, s1, n) && Leads(s1, b, s2, p)
    ensures Leads(s, a + b, s2, n + p)
  {
    RunAppend(s, a, b);
    SettlementsAppend(s, a, b);
  }

  lemma LeadsOne(s: Sys, step: Step)
    requires IsSchedulerStep(step)
    ensures Leads(s, [step], Next(s, step),
                  if step.WriteBack? && step.t in s.tasks && s.tasks[step.t].phase == Succeeded then 1 else 0)
  {
    assert [step][1..] == [];
  }

  /** How a settlement attempt ended for its caller. */
  datatype Turn = Finished | NotFinished | Threw

  /** Told from the columns: the grace period of the proposal is over. */
  predicate GraceIsOver(k: Market, now: int) {
    k.proposedAt.Some? && k.proposedAt.value + k.graceSeconds * 1000 <= now
  }

  /** Told from the columns: the last attempt is still open after five minutes. */
  predicate AttemptIsOld(k: Market, now: int) {
    && k.attempts != [] && k.attempts[|k.attempts| - 1].status == Resolving
    && k.attempts[|k.attempts| - 1].claimedAt + 300000 <= now
  }

  /** Told from the columns: the market is proposed or being settled, for something, with an attempt left. */
  predicate HasAttemptLeft(k: Market) {
    k.state in {Proposed, Settling} && k.proposed.Some? && k.proposed.value != "" && k.attemptCount < 5
  }

  /**
   Told from the columns: what trying to settle `k` makes of it. It is resolved for its
   proposal, or the attempt failed, or the last write was lost and the attempt is open.
   */
  predicate SettlesOrFails(k: Market, k': Market, chainOk: bool, writeOk: bool, now: int, turn: Turn) {
    && k.proposed.Some?
    && (var o := k.proposed.value;
        var tried := k.(attemptCount := k.attemptCount + 1,
                        calls := k.calls + [ChainCall(Some(|k.attempts|), o, chainOk, now)]);
        if !writeOk then
          turn == Threw && k' == tried.(state := Settling, attempts := k.attempts + [Attempt(Resolving, o, now)])
        else if chainOk then
          turn == Finished
          && k' == tried.(state := Settled, attempts := k.attempts + [Attempt(Resolved, o, now)], resolved := true,
                          resolvedOutcome := Some(o), resolvedAt := Some(now))
        else
          turn == NotFinished && k' == tried.(state := Settling, attempts := k.attempts + [Attempt(Failed, o, now)]))
  }

  /** The row after the claim, the call and, if it succeeds, the last write. */
  function TriedRow(k: Market, chainOk: bool, writeOk: bool, now: int): Market
    requires Claimable(k)
  {
    var called := WithCall(Claimed(k, now), |k.attempts|, k.proposed.value, chainOk, now);
    if !writeOk then called
    else if chainOk then Finalized(called, |k.attempts|, k.proposed.value, now)
    else WithStatus(called, |k.attempts|, Failed)
  }

  lemma TriedRowTold(k: Market, chainOk: bool, writeOk: bool, now: int)
    ensures Claimable(k) <==> HasAttemptLeft(k)
    ensures Claimable(k) ==>
              SettlesOrFails(k, TriedRow(k, chainOk, writeOk, now), chainOk, writeOk, now,
                             if !writeOk then Threw else if chainOk then Finished else NotFinished)
  {
    if Claimable(k) {
      StatusOfLast(k.attempts, Attempt(Resolving, k.proposed.value, now), Resolved);
      StatusOfLast(k.attempts, Attempt(Resolving, k.proposed.value, now), Failed);
    }
  }

  lemma StatusOfLast(attempts: seq<Attempt>, last: Attempt, status: AttemptStatus)
    ensures
      var all := attempts + [last];
      all[|attempts| := all[|attempts|].(status := status)] == attempts + [last.(status := status)]
  {
  }

  class Scheduler {
    const id: InstanceId
    const db: Database
    var deadLetterQueue: map<MarketId, RetryInfo>

    constructor (id: InstanceId, db: Database)
      ensures this.id == id && this.db == db && deadLetterQueue == map[]
    {
      this.id := id;
      this.db := db;
      deadLetterQueue := map[];
    }

    /** The system as this instance sees it, with `work` still to try and `tasks` in progress. */
    ghost function View(work: multiset<WorkItem>, tasks: map<TaskId, Task>): Sys
      reads this, db
    {
      Sys(db.now, db.markets, map[id := Instance(work, deadLetterQueue)], tasks, map[])
    }

    method ClaimMarketForSettlement(m: MarketId, gotLock: bool) returns (claim: Option<(string, nat)>)
      modifies db`markets
      ensures claim.Some? <==> gotLock && m in old(db.markets) && Claimable(old(db.markets)[m])
      ensures claim.Some? ==>
                var k := old(db.markets)[m];
                && claim.value == (k.proposed.value, |k.attempts|)
                && db.markets == old(db.markets)[m := Claimed(k, db.now)]
      ensures claim.None? ==> db.markets == old(db.markets)
      ensures claim.Some? <==> gotLock && m in old(db.markets) && HasAttemptLeft(old(db.markets)[m])
      ensures claim.Some? ==>
                var k := old(db.markets)[m];
                db.markets[m] == k.(state := Settling, attemptCount := k.attemptCount + 1,
                                    attempts := k.attempts + [Attempt(Resolving, k.proposed.value, db.now)])
    {
      if !gotLock || m !in db.markets { return None; }
      var current := db.markets[m];
      var stillEligible :=
        CanTransition(current.state, Settling) && current.proposed.Some? && current.proposed.value != "";
      if !stillEligible { return None; }
      if current.attemptCount >= MAX_RETRY_ATTEMPTS { return None; }
      var attempt := Attempt(Resolving, current.proposed.value, db.now);
      var updated := current.(attempts := current.attempts + [attempt]);
      if current.state != Settling {
        updated := updated.(state := Settling);
      }
      updated := updated.(attemptCount := current.attemptCount + 1);
      db.markets := db.markets[m := updated];
      return Some((current.proposed.value, |current.attempts|));
    }

    /**
     The row is settled for good with the attempt's outcome; what was proposed, the end
     of the grace period, the calls and every other attempt stay as they are.
     */
    method FinalizeSettlement(m: MarketId, outcome: string, attempt: nat)
      requires m in db.markets
      modifies db`markets
      ensures db.markets == old(db.markets)[m := Finalized(old(db.markets)[m], attempt, outcome, db.now)]
      ensures
        var k, k' := old(db.markets)[m], db.markets[m];
        && k'.state == Settled && k'.resolved && k'.resolvedOutcome == Some(outcome) && !Claimable(k')
        && !MayAdjudicate(k', outcome, true) && Challenge(k', db.now).Err?
        && SameProposal(k, k') && k'.proposed == k.proposed && k'.calls == k.calls && k'.attemptCount == k.attemptCount
        && OnlyStatusChanged(k.attempts, k'.attempts, attempt, Resolved)
    {
      var market := db.markets[m];
      market := market.(state := Settled, resolved := true, resolvedOutcome := Some(outcome),
                        resolvedAt := Some(db.now));
      if attempt < |market.attempts| {
        market := market.(attempts := market.attempts[attempt := market.attempts[attempt].(status := Resolved)]);
      }
      db.markets := db.markets[m := market];
    }

    /** The attempt counts as failed and is no longer stale; nothing else of the market changes. */
    method RecordAttemptFailure(m: MarketId, attempt: nat)
      requires m in db.markets
      modifies db`markets
      ensures db.markets == old(db.markets)[m := WithStatus(old(db.markets)[m], attempt, Failed)]
      ensures
        var k, k' := old(db.markets)[m], db.markets[m];
        && k'.(attempts := k.attempts) == k && OnlyStatusChanged(k.attempts, k'.attempts, attempt, Failed)
        && (attempt + 1 == |k.attempts| ==> !IsStale(k', db.now))
    {
      var market := db.markets[m];
      if attempt < |market.attempts| {
        market := market.(attempts := market.attempts[attempt := market.attempts[attempt].(status := Failed)]);
      }
      db.markets := db.markets[m := market];
    }

    /** The market is in the queue; an entry that was there keeps its attempts and its back-off. */
    method AddToRetryQueue(m: MarketId)
      modifies `deadLetterQueue
      ensures deadLetterQueue == Enqueued(old(deadLetterQueue), m, db.now)
      ensures m in deadLetterQueue && deadLetterQueue.Keys == old(deadLetterQueue).Keys + {m}
      ensures forall n :: n in old(deadLetterQueue) ==> deadLetterQueue[n] == old(deadLetterQueue)[n]
      ensures m !in old(deadLetterQueue) ==> deadLetterQueue[m] == RetryInfo(0, db.now + 60000)
    {
      if m !in deadLetterQueue {
        deadLetterQueue := deadLetterQueue[m := RetryInfo(0, NextRetry(db.now, 0))];
      }
    }

    /**
     Claim, call the chain outside the transaction, then finalize or record the failure.
     When that last write fails the settlement stays as it is and the error goes to the caller.
     */
    method SettleMarket(m: MarketId, gotLock: bool, chainOk: bool, writeOk: bool) returns (turn: Turn)
      modifies db`markets, `deadLetterQueue
      ensures turn == TurnOf(old(db.markets), m, gotLock, chainOk, writeOk)
      ensures db.markets == SettledMarkets(old(db.markets), m, gotLock, chainOk, writeOk, db.now)
      ensures deadLetterQueue ==
              SettledQueue(old(deadLetterQueue), m, false, CanClaim(old(db.markets), m, gotLock), true,
                           chainOk, writeOk, db.now)
      ensures gotLock && m in old(db.markets) && HasAttemptLeft(old(db.markets)[m]) ==>
                && m in db.markets && db.markets == old(db.markets)[m := db.markets[m]]
                && SettlesOrFails(old(db.markets)[m], db.markets[m], chainOk, writeOk, db.now, turn)
                && (writeOk && !chainOk ==> m in deadLetterQueue)
      ensures !(gotLock && m in old(db.markets) && HasAttemptLeft(old(db.markets)[m])) ==>
                turn == NotFinished && db.markets == old(db.markets) && deadLetterQueue == old(deadLetterQueue)
    {
      if m in db.markets {
        TriedRowTold(db.markets[m], chainOk, writeOk, db.now);
      }
      var claim := ClaimMarketForSettlement(m, gotLock);
      if claim.None? { return NotFinished; }
      var (outcome, attempt) := claim.value;
      db.markets := db.markets[m := WithCall(db.markets[m], attempt, outcome, chainOk, db.now)];
      if !writeOk { return Threw; }
      if !chainOk {
        RecordAttemptFailure(m, attempt);
        AddToRetryQueue(m);
        return NotFinished;
      }
      FinalizeSettlement(m, outcome, attempt);
      return Finished;
    }

    /** A retry: on failure the entry counts one more attempt and backs off further. */
    method SettleMarketWithRetry(m: MarketId, gotLock: bool, chainOk: bool, writeOk: bool) returns (turn: Turn)
      modifies db`markets, `deadLetterQueue
      ensures turn == TurnOf(old(db.markets), m, gotLock, chainOk, writeOk)
      ensures db.markets == SettledMarkets(old(db.markets), m, gotLock, chainOk, writeOk, db.now)
      ensures deadLetterQueue ==
              if turn != NotFinished then old(deadLetterQueue)
              else if CanClaim(old(db.markets), m, gotLock)
                   then Bumped(Enqueued(old(deadLetterQueue), m, db.now), m, db.now)
                   else Bumped(old(deadLetterQueue), m, db.now)
      ensures turn == NotFinished && m in old(deadLetterQueue) ==>
                var n := old(deadLetterQueue)[m].attempts + 1;
                deadLetterQueue == old(deadLetterQueue)[m := RetryInfo(n, db.now + 60000 * Power2(n))]
    {
      turn := SettleMarket(m, gotLock, chainOk, writeOk);
      if turn != NotFinished { return turn; }
      if m in deadLetterQueue {
        var attempts := deadLetterQueue[m].attempts + 1;
        deadLetterQueue := deadLetterQueue[m := RetryInfo(attempts, NextRetry(db.now, attempts))];
      }
    }

    /** The turn of `m` in a sweep. */
    method SweepTurn(m: MarketId, ghost rest: set<MarketId>, gotLock: bool, chainOk: bool, writeOk: bool)
      returns (turn: Turn)
      modifies db`markets, `deadLetterQueue
      ensures turn == TurnOf(old(db.markets), m, gotLock, chainOk, writeOk)
      ensures View(Items(rest, false), map[])
              == AfterAttempt(old(View(Items({m} + rest, false), map[])), id, rest, m, false, gotLock, chainOk, writeOk)
    {
      turn := SettleMarket(m, gotLock, chainOk, writeOk);
    }

    /** The same as the next steps of a run. */
    method SweepNext(m: MarketId, ghost rest: set<MarketId>, gotLock: bool, chainOk: bool, writeOk: bool,
                     ghost start: Sys, ghost done: seq<Step>, ghost n: nat)
      returns (turn: Turn, ghost steps: seq<Step>)
      requires m !in rest && Leads(start, done, View(Items({m} + rest, false), map[]), n)
      modifies db`markets, `deadLetterQueue
      ensures turn == TurnOf(old(db.markets), m, gotLock, chainOk, writeOk)
      ensures db.markets == SettledMarkets(old(db.markets), m, gotLock, chainOk, writeOk, db.now)
      ensures Leads(start, steps, View(Items(rest, false), map[]), n + if turn == Finished then 1 else 0)
    {
      ghost var before := View(Items({m} + rest, false), map[]);
      turn := SweepTurn(m, rest, gotLock, chainOk, writeOk);
      steps := AttemptLeads(start, done, n, before, id, rest, m, false, gotLock, chainOk, writeOk);
    }

    /** The turn of `m` in a retry pass or a manual retry: a missing or settled market leaves the queue. */
    method RetryTurn(m: MarketId, ghost rest: set<MarketId>, gotLock: bool, chainOk: bool, writeOk: bool)
      returns (turn: Turn)
      modifies db`markets, `deadLetterQueue
      ensures turn == TurnOf(old(db.markets), m, gotLock, chainOk, writeOk)
      ensures View(Items(rest, true), map[])
              == AfterAttempt(old(View(Items({m} + rest, true), map[])), id, rest, m, true, gotLock, chainOk, writeOk)
    {
      if m !in db.markets {
        deadLetterQueue := deadLetterQueue - {m};
        return NotFinished;
      }
      turn := SettleMarketWithRetry(m, gotLock, chainOk, writeOk);
      if turn == Finished {
        deadLetterQueue := deadLetterQueue - {m};
      }
    }

    /** The due markets of the one page and the stale markets of the other. */
    method FindMarkets(proposedPage: set<MarketId>, settlingPage: set<MarketId>)
      returns (todo: set<MarketId>, ghost steps: seq<Step>)
      requires |proposedPage| <= MAX_SETTLEMENTS_PER_TICK && |settlingPage| <= MAX_SETTLEMENTS_PER_TICK
      requires forall m :: m in proposedPage ==> m in db.markets && db.markets[m].state == Proposed
      requires forall m :: m in settlingPage ==> m in db.markets && db.markets[m].state == Settling
      ensures todo == set m | m in proposedPage + settlingPage
                              && ((m in proposedPage && IsDue(db.markets[m], db.now))
                                  || (m in settlingPage && IsStale(db.markets[m], db.now)))
      ensures todo <= proposedPage + settlingPage
      ensures forall m :: m in proposedPage ==> (m in todo <==> GraceIsOver(db.markets[m], db.now))
      ensures forall m :: m in settlingPage ==> (m in todo <==> AttemptIsOld(db.markets[m], db.now))
      ensures Leads(View(multiset{}, map[]), steps, View(Items(todo, false), map[]), 0)
    {
      var due := set m | m in proposedPage && IsDue(db.markets[m], db.now);
      var stale := set m | m in settlingPage && IsStale(db.markets[m], db.now);
      SubsetCardinality(due, proposedPage);
      SubsetCardinality(stale, settlingPage);
      todo := due + stale;
      steps := ReadsLead(View(multiset{}, map[]), id, deadLetterQueue, due, stale);
    }

    /**
     The loop of a sweep. An error while settling one market does not keep the others from
     being tried.
     */
    method SettleAll(markets: set<MarketId>, lock: MarketId -> bool, chain: MarketId -> bool, write: MarketId -> bool,
                     ghost start: Sys, ghost found: seq<Step>)
      returns (settledCount: nat, ghost steps: seq<Step>)
      requires markets <= db.markets.Keys && Leads(start, found, View(Items(markets, false), map[]), 0)
      modifies db`markets, `deadLetterQueue
      ensures Leads(start, steps, View(multiset{}, map[]), settledCount)
      ensures db.markets == SweptMarkets(old(db.markets), markets, lock, chain, write, db.now)
      ensures settledCount == |Finishing(old(db.markets), markets, lock, chain, write)|
    {
      steps, settledCount := found, 0;
      var todo := markets;
      while todo != {}
        invariant todo <= markets
        invariant Leads(start, steps, View(Items(todo, false), map[]), settledCount)
        invariant SweptSoFar(old(db.markets), db.markets, markets - todo, settledCount, lock, chain, write, db.now)
        decreases todo
      {
        var m :| m in todo;
        ghost var tried, before := markets - todo, db.markets;
        assert markets - (todo - {m}) == tried + {m} && {m} + (todo - {m}) == todo;
        todo := todo - {m};
        var turn;
        turn, steps := SweepNext(m, todo, lock(m), chain(m), write(m), start, steps, settledCount);
        SweptTurn(old(db.markets), before, tried, settledCount, m, lock, chain, write, db.now);
        if turn == Finished {
          settledCount := settledCount + 1;
        }
      }
      assert Items({}, false) == multiset{} && markets - {} == markets;
    }

    /**
     One sweep over the markets that the two queries returned. A market is settled by it if
     and only if its grace period is over or its last attempt is five minutes old, it has a
     proposal and an attempt left, and the lock, the chain and the last write all work; the
     sweep reports how many these are and touches no other market than the ones it tried.
     */
    method SettleEligibleMarkets(proposedPage: set<MarketId>, settlingPage: set<MarketId>,
                                 lock: MarketId -> bool, chain: MarketId -> bool, write: MarketId -> bool)
      returns (settledCount: nat, ghost steps: seq<Step>)
      requires |proposedPage| <= MAX_SETTLEMENTS_PER_TICK && |settlingPage| <= MAX_SETTLEMENTS_PER_TICK
      requires forall m :: m in proposedPage ==> m in db.markets && db.markets[m].state == Proposed
      requires forall m :: m in settlingPage ==> m in db.markets && db.markets[m].state == Settling
      modifies db`markets, `deadLetterQueue
      ensures Leads(old(View(multiset{}, map[])), steps, View(multiset{}, map[]), settledCount)
      ensures db.markets.Keys == old(db.markets).Keys
      ensures forall m :: m in db.markets ==>
                if m in proposedPage + settlingPage && old(db.markets)[m].proposed.Some?
                   && old(db.markets)[m].proposed.value != "" && old(db.markets)[m].attemptCount < 5
                   && (m in proposedPage ==> GraceIsOver(old(db.markets)[m], db.now))
                   && (m in settlingPage ==> AttemptIsOld(old(db.markets)[m], db.now)) && lock(m)
                then SettlesOrFails(old(db.markets)[m], db.markets[m], chain(m), write(m), db.now,
                                    if !write(m) then Threw else if chain(m) then Finished else NotFinished)
                else db.markets[m] == old(db.markets)[m]
      ensures settledCount
              == |set m | m in db.markets && db.markets[m].state == Settled && old(db.markets)[m].state != Settled|
    {
      ghost var start := View(multiset{}, map[]);
      ghost var before := db.markets;
      var todo;
      todo, steps := FindMarkets(proposedPage, settlingPage);
      settledCount, steps := SettleAll(todo, lock, chain, write, start, steps);
      forall m | m in before ensures SweptRow(before, todo, m, lock, chain, write, db.now) {
        SweptRowTold(before, todo, m, lock, chain, write, db.now);
      }
      FinishingAreSettled(before, todo, lock, chain, write, db.now);
    }

    /** The manual retry of the admin endpoint; a failing write goes through to the caller. */
    method RetrySettlement(m: MarketId, gotLock: bool, chainOk: bool, writeOk: bool)
      returns (r: Result<Turn>, ghost steps: seq<Step>)
      modifies db`markets, `deadLetterQueue
      ensures r.Ok? <==> m in old(db.markets) && m in old(deadLetterQueue)
      ensures r.Ok? ==>
                Leads(old(View(multiset{}, map[])), steps, View(multiset{}, map[]),
                      if r.value == Finished then 1 else 0)
      ensures r.Err? ==> db.markets == old(db.markets) && deadLetterQueue == old(deadLetterQueue)
      ensures r.Ok? && gotLock && HasAttemptLeft(old(db.markets)[m]) ==>
                && m in db.markets && db.markets == old(db.markets)[m := db.markets[m]]
                && SettlesOrFails(old(db.markets)[m], db.markets[m], chainOk, writeOk, db.now, r.value)
      ensures r.Ok? && !(gotLock && HasAttemptLeft(old(db.markets)[m])) ==>
                r.value == NotFinished && db.markets == old(db.markets)
      ensures r.Ok? ==>
                var n := old(deadLetterQueue)[m].attempts + 1;
                deadLetterQueue == match r.value
                  case Finished => old(deadLetterQueue) - {m}
                  case Threw => old(deadLetterQueue)
                  case NotFinished => old(deadLetterQueue)[m := RetryInfo(n, db.now + 60000 * Power2(n))]
    {
      steps := [];
      if m !in db.markets || m !in deadLetterQueue { return Err(NotFound), []; }
      ghost var start := View(multiset{}, map[]);
      ghost var ready := View(multiset{WorkItem(m, true)}, map[]);
      assert Next(start, RetryByAdmin(id, m)) == ready by {
        assert multiset{} + multiset{WorkItem(m, true)} == multiset{WorkItem(m, true)};
      }
      LeadsOne(start, RetryByAdmin(id, m));
      SingleItem(m);
      TriedRowTold(db.markets[m], chainOk, writeOk, db.now);
      var turn := RetryTurn(m, {}, gotLock, chainOk, writeOk);
      steps := AttemptLeads(start, [RetryByAdmin(id, m)], 0, ready, id, {}, m, true, gotLock, chainOk, writeOk);
      return Ok(turn), steps;
    }

    /** The next turn of a retry pass, as the next steps of a run. */
    method RetryNext(m: MarketId, ghost rest: set<MarketId>, gotLock: bool, chainOk: bool, writeOk: bool,
                     ghost start: Sys, ghost done: seq<Step>, ghost n: nat)
      returns (turn: Turn, ghost steps: seq<Step>)
      requires m !in rest && Leads(start, done, View(Items({m} + rest, true), map[]), n)
      modifies db`markets, `deadLetterQueue
      ensures turn == TurnOf(old(db.markets), m, gotLock, chainOk, writeOk)
      ensures db.markets == SettledMarkets(old(db.markets), m, gotLock, chainOk, writeOk, db.now)
      ensures deadLetterQueue ==
              SettledQueue(old(deadLetterQueue), m, true, CanClaim(old(db.markets), m, gotLock), m in old(db.markets),
                           chainOk, writeOk, db.now)
      ensures Leads(start, steps, View(Items(rest, true), map[]), n + if turn == Finished then 1 else 0)
    {
      ghost var before := View(Items({m} + rest, true), map[]);
      turn := RetryTurn(m, rest, gotLock, chainOk, writeOk);
      steps := AttemptLeads(start, done, n, before, id, rest, m, true, gotLock, chainOk, writeOk);
      assert View(Items(rest, true), map[]).instances[id].queue == deadLetterQueue;
    }

    /** The loop of a retry pass; a failing write ends it. */
    method RetryAll(due: set<MarketId>, lock: MarketId -> bool, chain: MarketId -> bool, write: MarketId -> bool,
                    ghost start: Sys, ghost found: seq<Step>)
      returns (threw: bool, ghost steps: seq<Step>, ghost n: nat, ghost left: set<MarketId>)
      requires due <= deadLetterQueue.Keys && Leads(start, found, View(Items(due, true), map[]), 0)
      modifies db`markets, `deadLetterQueue
      ensures Leads(start, steps, View(Items(left, true), map[]), n) && (!threw ==> left == {})
      ensures threw <==> exists m :: m in due && CanClaim(old(db.markets), m, lock(m)) && !write(m)
      ensures !threw ==>
                && db.markets == SweptMarkets(old(db.markets), due, lock, chain, write, db.now)
                && deadLetterQueue == RetriedQueue(old(deadLetterQueue), old(db.markets), due, lock, chain, db.now)
    {
      steps, n, threw, left := found, 0, false, due;
      var todo := due;
      RetriedNone(deadLetterQueue, db.markets, lock, chain, write, db.now);
      assert due - due == {} && due - {} == due;
      while todo != {} && !threw
        invariant left == todo <= due
        invariant Leads(start, steps, View(Items(todo, true), map[]), n)
        invariant threw ==> exists m :: m in due && CanClaim(old(db.markets), m, lock(m)) && !write(m)
        invariant !threw ==> RetriedSoFar(old(deadLetterQueue), old(db.markets), deadLetterQueue, db.markets,
                                          due - todo, lock, chain, write, db.now)
        decreases todo
      {
        var m :| m in todo;
        ghost var tried, queue, before := due - todo, deadLetterQueue, db.markets;
        assert due - (todo - {m}) == tried + {m} && {m} + (todo - {m}) == todo;
        todo := todo - {m};
        left := todo;
        var turn;
        turn, steps := RetryNext(m, todo, lock(m), chain(m), write(m), start, steps, n);
        RetriedTurn(old(deadLetterQueue), old(db.markets), queue, before, tried, m, lock, chain, write, db.now);
        n := n + if turn == Finished then 1 else 0;
        threw := turn == Threw;
      }
    }

    /**
     One pass over the retry entries whose back-off has elapsed and that have a retry left;
     a failing write ends it. Otherwise each of these markets leaves the queue if it is gone
     or settled, and has one retry more and twice the back-off if not; no other entry changes.
     */
    method ProcessRetries(lock: MarketId -> bool, chain: MarketId -> bool, write: MarketId -> bool)
      returns (threw: bool, ghost steps: seq<Step>, ghost n: nat)
      modifies db`markets, `deadLetterQueue
      ensures Leads(old(View(multiset{}, map[])), steps, View(multiset{}, map[]), n)
      ensures threw <==> exists m :: m in old(deadLetterQueue) && IsRetryDue(old(deadLetterQueue)[m], db.now)
                                     && m in old(db.markets) && HasAttemptLeft(old(db.markets)[m]) && lock(m)
                                     && !write(m)
      ensures !threw ==> forall m :: m in old(deadLetterQueue) ==>
                RetriedEntry(old(deadLetterQueue)[m], if m in deadLetterQueue then Some(deadLetterQueue[m]) else None,
                             m in old(db.markets), m in old(db.markets) && HasAttemptLeft(old(db.markets)[m])
                                                   && lock(m) && chain(m), db.now)
      ensures !threw ==> deadLetterQueue.Keys <= old(deadLetterQueue).Keys && db.markets.Keys == old(db.markets).Keys
      ensures !threw ==> forall m :: m in db.markets ==>
                if m in old(deadLetterQueue) && IsRetryDue(old(deadLetterQueue)[m], db.now)
                   && HasAttemptLeft(old(db.markets)[m]) && lock(m)
                then SettlesOrFails(old(db.markets)[m], db.markets[m], chain(m), true, db.now,
                                    if chain(m) then Finished else NotFinished)
                else db.markets[m] == old(db.markets)[m]
    {
      var due := set m | m in deadLetterQueue
        && deadLetterQueue[m].nextRetryAt <= db.now && deadLetterQueue[m].attempts < MAX_RETRY_ATTEMPTS;
      ghost var start := View(multiset{}, map[]);
      ghost var before, markets, left := deadLetterQueue, db.markets, {};
      steps := ReadRetriesLead(start, id, deadLetterQueue, due);
      threw, steps, n, left := RetryAll(due, lock, chain, write, start, steps);
      if threw {
        DropLeads(start, steps, View(Items(left, true), map[]), n, id);
        steps := steps + [DropWork(id)];
      } else {
        assert Items({}, true) == multiset{};
      }
      RetryPassTold(before, markets, due, lock, chain, write, db.now);
    }
  }

  /** The rows and the queue after a whole retry pass, told from the columns. */
  lemma RetryPassTold(queue: map<MarketId, RetryInfo>, markets: map<MarketId, Market>, due: set<MarketId>,
                      lock: MarketId -> bool, chain: MarketId -> bool, write: MarketId -> bool, now: int)
    requires due == set m | m in queue && IsRetryDue(queue[m], now)
    ensures forall m :: m in markets ==> (Claimable(markets[m]) <==> HasAttemptLeft(markets[m]))
    ensures forall m :: m in markets ==> SweptRow(markets, due, m, lock, chain, write, now)
    ensures
      var after := RetriedQueue(queue, markets, due, lock, chain, now);
      && after.Keys <= queue.Keys
      && forall m :: m in queue ==>
           RetriedEntry(queue[m], if m in after then Some(after[m]) else None, m in markets,
                        m in markets && HasAttemptLeft(markets[m]) && lock(m) && chain(m), now)
  {
    forall m | m in markets
      ensures Claimable(markets[m]) <==> HasAttemptLeft(markets[m])
      ensures SweptRow(markets, due, m, lock, chain, write, now)
    {
      TriedRowTold(markets[m], chain(m), write(m), now);
      SweptRowTold(markets, due, m, lock, chain, write, now);
    }
  }

  /** Told from the columns: the back-off is over and there is a retry left. */
  predicate IsRetryDue(info: RetryInfo, now: int) {
    info.nextRetryAt <= now && info.attempts < 5
  }

  /** What a retry pass makes of an entry whose market is `known` and may be `settled`. */
  predicate RetriedEntry(info: RetryInfo, after: Option<RetryInfo>, known: bool, settled: bool, now: int) {
    after == if !IsRetryDue(info, now) then Some(info)
             else if !known || settled then None
             else Some(RetryInfo(info.attempts + 1, now + 60000 * Power2(info.attempts + 1)))
  }

  /** Of the attempts only the one at `attempt` changed, and of it only the status. */
  predicate OnlyStatusChanged(before: seq<Attempt>, after: seq<Attempt>, attempt: nat, status: AttemptStatus) {
    && |after| == |before|
    && (forall j :: 0 <= j < |before| && j != attempt ==> after[j] == before[j])
    && (attempt < |before| ==> after[attempt] == Attempt(status, before[attempt].outcome, before[attempt].claimedAt))
  }

  // ----------------------------------------------------- the run of one attempt

  predicate CanClaim(markets: map<MarketId, Market>, m: MarketId, gotLock: bool) {
    gotLock && m in markets && Claimable(markets[m])
  }

  function TurnOf(markets: map<MarketId, Market>, m: MarketId, gotLock: bool, chainOk: bool, writeOk: bool): Turn {
    if !CanClaim(markets, m, gotLock) then NotFinished
    else if !writeOk then Threw
    else if chainOk then Finished else NotFinished
  }

  /** The rows after one settlement attempt of `m`. */
  function SettledMarkets(markets: map<MarketId, Market>, m: MarketId, gotLock: bool, chainOk: bool, writeOk: bool,
                          now: int): map<MarketId, Market>
  {
    if CanClaim(markets, m, gotLock) then markets[m := TriedRow(markets[m], chainOk, writeOk, now)] else markets
  }

  /** The rows after the markets in `tried` had their turn. */
  function SweptMarkets(markets: map<MarketId, Market>, tried: set<MarketId>, lock: MarketId -> bool,
                        chain: MarketId -> bool, write: MarketId -> bool, now: int): map<MarketId, Market>
  {
    map m | m in markets :: if m in tried && CanClaim(markets, m, lock(m))
                            then TriedRow(markets[m], chain(m), write(m), now) else markets[m]
  }

  /** The tried markets whose turn ends well. */
  function Finishing(markets: map<MarketId, Market>, tried: set<MarketId>, lock: MarketId -> bool,
                     chain: MarketId -> bool, write: MarketId -> bool): set<MarketId>
  {
    set m | m in tried && CanClaim(markets, m, lock(m)) && chain(m) && write(m)
  }

  lemma SweptOneMore(markets: map<MarketId, Market>, tried: set<MarketId>, m: MarketId, lock: MarketId -> bool,
                     chain: MarketId -> bool, write: MarketId -> bool, now: int)
    requires m !in tried
    ensures
      SweptMarkets(markets, tried + {m}, lock, chain, write, now)
      == SettledMarkets(SweptMarkets(markets, tried, lock, chain, write, now), m, lock(m), chain(m), write(m), now)
  {
  }

  lemma FinishingOneMore(markets: map<MarketId, Market>, tried: set<MarketId>, m: MarketId, lock: MarketId -> bool,
                         chain: MarketId -> bool, write: MarketId -> bool)
    requires m !in tried
    ensures
      |Finishing(markets, tried + {m}, lock, chain, write)|
      == |Finishing(markets, tried, lock, chain, write)|
         + if TurnOf(markets, m, lock(m), chain(m), write(m)) == Finished then 1 else 0
  {
    var finishing := Finishing(markets, tried, lock, chain, write);
    if CanClaim(markets, m, lock(m)) && chain(m) && write(m) {
      assert Finishing(markets, tried + {m}, lock, chain, write) == finishing + {m};
    } else {
      assert Finishing(markets, tried + {m}, lock, chain, write) == finishing;
    }
  }

  /** `now` are the rows when the markets in `tried` had their turn, and `n` of them ended well. */
  predicate SweptSoFar(before: map<MarketId, Market>, markets: map<MarketId, Market>, tried: set<MarketId>, n: nat,
                       lock: MarketId -> bool, chain: MarketId -> bool, write: MarketId -> bool, now: int)
  {
    && markets == SweptMarkets(before, tried, lock, chain, write, now)
    && n == |Finishing(before, tried, lock, chain, write)|
  }

  lemma SweptTurn(before: map<MarketId, Market>, markets: map<MarketId, Market>, tried: set<MarketId>, n: nat,
                  m: MarketId, lock: MarketId -> bool, chain: MarketId -> bool, write: MarketId -> bool, now: int)
    requires SweptSoFar(before, markets, tried, n, lock, chain, write, now) && m !in tried
    ensures SweptSoFar(before, SettledMarkets(markets, m, lock(m), chain(m), write(m), now), tried + {m},
                       n + if TurnOf(markets, m, lock(m), chain(m), write(m)) == Finished then 1 else 0,
                       lock, chain, write, now)
  {
    SweptOneMore(before, tried, m, lock, chain, write, now);
    FinishingOneMore(before, tried, m, lock, chain, write);
  }

  /** The retry queue after the markets in `tried`, all of them queued, had their turn. */
  function RetriedQueue(queue: map<MarketId, RetryInfo>, markets: map<MarketId, Market>, tried: set<MarketId>,
                        lock: MarketId -> bool, chain: MarketId -> bool, now: int): map<MarketId, RetryInfo>
  {
    map m | m in queue && !(m in tried && (m !in markets || (CanClaim(markets, m, lock(m)) && chain(m)))) ::
      if m in tried then RetryInfo(queue[m].attempts + 1, NextRetry(now, queue[m].attempts + 1)) else queue[m]
  }

  lemma RetriedOneMore(queue: map<MarketId, RetryInfo>, markets: map<MarketId, Market>, tried: set<MarketId>,
                       m: MarketId, lock: MarketId -> bool, chain: MarketId -> bool, now: int)
    requires m in queue && m !in tried
    ensures
      RetriedQueue(queue, markets, tried + {m}, lock, chain, now)
      == SettledQueue(RetriedQueue(queue, markets, tried, lock, chain, now), m, true, CanClaim(markets, m, lock(m)),
                      m in markets, chain(m), true, now)
  {
  }

  /** Rows and queue when the markets in `tried` had their turn in a retry pass that no write has ended. */
  predicate RetriedSoFar(queue0: map<MarketId, RetryInfo>, markets0: map<MarketId, Market>,
                         queue: map<MarketId, RetryInfo>, markets: map<MarketId, Market>, tried: set<MarketId>,
                         lock: MarketId -> bool, chain: MarketId -> bool, write: MarketId -> bool, now: int)
  {
    && markets == SweptMarkets(markets0, tried, lock, chain, write, now)
    && queue == RetriedQueue(queue0, markets0, tried, lock, chain, now)
    && forall m :: m in tried ==> !(CanClaim(markets0, m, lock(m)) && !write(m))
  }

  lemma RetriedNone(queue: map<MarketId, RetryInfo>, markets: map<MarketId, Market>, lock: MarketId -> bool,
                    chain: MarketId -> bool, write: MarketId -> bool, now: int)
    ensures RetriedSoFar(queue, markets, queue, markets, {}, lock, chain, write, now)
  {
  }

  lemma RetriedTurn(queue0: map<MarketId, RetryInfo>, markets0: map<MarketId, Market>, queue: map<MarketId, RetryInfo>,
                    markets: map<MarketId, Market>, tried: set<MarketId>, m: MarketId, lock: MarketId -> bool,
                    chain: MarketId -> bool, write: MarketId -> bool, now: int)
    requires RetriedSoFar(queue0, markets0, queue, markets, tried, lock, chain, write, now)
    requires m in queue0 && m !in tried
    ensures TurnOf(markets, m, lock(m), chain(m), write(m)) == Threw <==> CanClaim(markets0, m, lock(m)) && !write(m)
    ensures TurnOf(markets, m, lock(m), chain(m), write(m)) != Threw ==>
              RetriedSoFar(queue0, markets0,
                           SettledQueue(queue, m, true, CanClaim(markets, m, lock(m)), m in markets, chain(m), write(m),
                                        now),
                           SettledMarkets(markets, m, lock(m), chain(m), write(m), now), tried + {m},
                           lock, chain, write, now)
  {
    SweptOneMore(markets0, tried, m, lock, chain, write, now);
    RetriedOneMore(queue0, markets0, tried, m, lock, chain, now);
    assert CanClaim(markets, m, lock(m)) == CanClaim(markets0, m, lock(m));
  }

  /** The first retry waits one minute, and every further one twice as long as the one before. */
  lemma BackoffDoubles(now: int, n: nat)
    ensures NextRetry(now, 0) == now + 60000
    ensures NextRetry(now, n + 1) - now == 2 * (NextRetry(now, n) - now)
  {
  }

  /** What a sweep makes of one row, told from the columns. */
  predicate SweptRow(markets: map<MarketId, Market>, tried: set<MarketId>, m: MarketId, lock: MarketId -> bool,
                     chain: MarketId -> bool, write: MarketId -> bool, now: int)
    requires m in markets
  {
    var k, k' := markets[m], SweptMarkets(markets, tried, lock, chain, write, now)[m];
    if m in tried && HasAttemptLeft(k) && lock(m)
    then SettlesOrFails(k, k', chain(m), write(m), now,
                        if !write(m) then Threw else if chain(m) then Finished else NotFinished)
    else k' == k
  }

  lemma SweptRowTold(markets: map<MarketId, Market>, tried: set<MarketId>, m: MarketId, lock: MarketId -> bool,
                     chain: MarketId -> bool, write: MarketId -> bool, now: int)
    requires m in markets
    ensures SweptRow(markets, tried, m, lock, chain, write, now)
  {
    TriedRowTold(markets[m], chain(m), write(m), now);
  }

  /** The markets whose turn ends well are those that the sweep settles. */
  lemma FinishingAreSettled(markets: map<MarketId, Market>, tried: set<MarketId>, lock: MarketId -> bool,
                            chain: MarketId -> bool, write: MarketId -> bool, now: int)
    requires tried <= markets.Keys
    ensures
      var swept := SweptMarkets(markets, tried, lock, chain, write, now);
      Finishing(markets, tried, lock, chain, write)
      == set m | m in swept && swept[m].state == Settled && markets[m].state != Settled
  {
    var swept := SweptMarkets(markets, tried, lock, chain, write, now);
    forall m | m in swept
      ensures m in Finishing(markets, tried, lock, chain, write)
              <==> swept[m].state == Settled && markets[m].state != Settled
    {
      TriedRowTold(markets[m], chain(m), write(m), now);
    }
  }

  /** The retry queue after one settlement attempt of `m`. */
  function SettledQueue(queue: map<MarketId, RetryInfo>, m: MarketId, viaRetry: bool, claimed: bool, known: bool,
                        chainOk: bool, writeOk: bool, now: int): map<MarketId, RetryInfo>
  {
    if claimed && !writeOk then queue
    else if claimed && chainOk then (if viaRetry then queue - {m} else queue)
    else if claimed then
      var failed := Enqueued(queue, m, now);
      if viaRetry then Bumped(failed, m, now) else failed
    else if viaRetry then (if known then Bumped(queue, m, now) else queue - {m})
    else queue
  }

  lemma SubsetCardinality<T>(a: set<T>, b: set<T>)
    requires a <= b
    ensures |a| <= |b|
  {
    assert b == a + (b - a);
  }

  lemma ItemsSplit(a: set<MarketId>, b: set<MarketId>)
    requires a !! b
    ensures Items(a + b, false) == Items(a, false) + Items(b, false)
  {
    var x := set m | m in a + b :: WorkItem(m, false);
    var y := set m | m in a :: WorkItem(m, false);
    var z := set m | m in b :: WorkItem(m, false);
    assert x == y + z && y !! z;
  }

  lemma SingleItem(m: MarketId)
    ensures Items({m}, true) == multiset{WorkItem(m, true)} && Items({}, true) == multiset{} && {m} + {} == {m}
  {
    assert (set n | n in {m} :: WorkItem(n, true)) == {WorkItem(m, true)};
  }

  lemma ReadDueStep(s: Sys, i: InstanceId, queue: map<MarketId, RetryInfo>, due: set<MarketId>)
    requires s.instances == map[i := Instance(multiset{}, queue)] && |due| <= MAX_SETTLEMENTS_PER_TICK
    requires forall m :: m in due ==> m in s.markets && IsDue(s.markets[m], s.now)
    ensures Next(s, ReadDue(i, due)) == s.(instances := map[i := Instance(Items(due, false), queue)])
  {
    assert multiset{} + Items(due, false) == Items(due, false);
  }

  lemma ReadStaleStep(s: Sys, i: InstanceId, inst: Instance, stale: set<MarketId>)
    requires s.instances == map[i := inst] && |stale| <= MAX_SETTLEMENTS_PER_TICK
    requires forall m :: m in stale ==> m in s.markets && IsStale(s.markets[m], s.now)
    ensures Next(s, ReadStale(i, stale)).instances == map[i := inst.(work := inst.work + Items(stale, false))]
    ensures Next(s, ReadStale(i, stale)) == s.(instances := Next(s, ReadStale(i, stale)).instances)
  {
  }

  lemma ReadRetriesLead(s: Sys, i: InstanceId, queue: map<MarketId, RetryInfo>, picked: set<MarketId>)
    returns (steps: seq<Step>)
    requires s.instances == map[i := Instance(multiset{}, queue)]
    requires forall m :: m in picked ==>
      m in queue && queue[m].nextRetryAt <= s.now && queue[m].attempts < MAX_RETRY_ATTEMPTS
    ensures Leads(s, steps, s.(instances := map[i := Instance(Items(picked, true), queue)]), 0)
  {
    assert multiset{} + Items(picked, true) == Items(picked, true);
    steps := [ReadRetries(i, picked)];
    LeadsOne(s, steps[0]);
  }

  /** An aborted pass forgets the markets it has not tried. */
  lemma DropLeads(start: Sys, done: seq<Step>, s: Sys, n: nat, i: InstanceId)
    requires Leads(start, done, s, n) && s.instances.Keys == {i}
    ensures Leads(start, done + [DropWork(i)], s.(instances := map[i := s.instances[i].(work := multiset{})]), n)
  {
    var s' := s.(instances := map[i := s.instances[i].(work := multiset{})]);
    assert s.instances[i := s.instances[i].(work := multiset{})] == s'.instances;
    LeadsOne(s, DropWork(i));
    LeadsOn(start, done, s, n, [DropWork(i)], s', 0);
  }

  lemma ReadsLead(s: Sys, i: InstanceId, queue: map<MarketId, RetryInfo>, due: set<MarketId>, stale: set<MarketId>)
    returns (steps: seq<Step>)
    requires s.instances == map[i := Instance(multiset{}, queue)]
    requires |due| <= MAX_SETTLEMENTS_PER_TICK && |stale| <= MAX_SETTLEMENTS_PER_TICK
    requires forall m :: m in due ==> m in s.markets && IsDue(s.markets[m], s.now)
    requires forall m :: m in stale ==> m in s.markets && IsStale(s.markets[m], s.now)
    ensures Leads(s, steps, s.(instances := map[i := Instance(Items(due + stale, false), queue)]), 0)
  {
    var s1 := s.(instances := map[i := Instance(Items(due, false), queue)]);
    ReadDueStep(s, i, queue, due);
    LeadsOne(s, ReadDue(i, due));
    ReadStaleLead(s1, i, queue, due, stale);
    LeadsOn(s, [ReadDue(i, due)], s1, 0, [ReadStale(i, stale)],
            s.(instances := map[i := Instance(Items(due + stale, false), queue)]), 0);
    steps := [ReadDue(i, due)] + [ReadStale(i, stale)];
  }

  lemma ReadStaleLead(s: Sys, i: InstanceId, queue: map<MarketId, RetryInfo>, due: set<MarketId>, stale: set<MarketId>)
    requires s.instances == map[i := Instance(Items(due, false), queue)] && due !! stale
    requires |stale| <= MAX_SETTLEMENTS_PER_TICK
    requires forall m :: m in stale ==> m in s.markets && IsStale(s.markets[m], s.now)
    ensures Leads(s, [ReadStale(i, stale)], s.(instances := map[i := Instance(Items(due + stale, false), queue)]), 0)
  {
    ReadStaleStep(s, i, Instance(Items(due, false), queue), stale);
    ItemsSplit(due, stale);
    LeadsOne(s, ReadStale(i, stale));
  }

  lemma ItemsRest(m: MarketId, rest: set<MarketId>, viaRetry: bool)
    requires m !in rest
    ensures WorkItem(m, viaRetry) in Items({m} + rest, viaRetry)
    ensures Items({m} + rest, viaRetry) - multiset{WorkItem(m, viaRetry)} == Items(rest, viaRetry)
  {
    var x := set n | n in {m} + rest :: WorkItem(n, viaRetry);
    var y := set n | n in rest :: WorkItem(n, viaRetry);
    assert x == {WorkItem(m, viaRetry)} + y && WorkItem(m, viaRetry) !in y;
  }

  /** The system after one attempt of `m` by `i`, with `rest` still to try. */
  function AfterAttempt(s: Sys, i: InstanceId, rest: set<MarketId>, m: MarketId, viaRetry: bool,
                        gotLock: bool, chainOk: bool, writeOk: bool): Sys
    requires i in s.instances
  {
    Sys(s.now, SettledMarkets(s.markets, m, gotLock, chainOk, writeOk, s.now),
        map[i := Instance(Items(rest, viaRetry),
                          SettledQueue(s.instances[i].queue, m, viaRetry, CanClaim(s.markets, m, gotLock),
                                       m in s.markets, chainOk, writeOk, s.now))],
        map[], s.requests)
  }

  /** Only `i` exists; it has `m` and `rest` to try and nothing in progress. */
  predicate Idle(s: Sys, i: InstanceId, rest: set<MarketId>, m: MarketId, viaRetry: bool) {
    && m !in rest && s.tasks == map[] && s.instances.Keys == {i}
    && s.instances[i].work == Items({m} + rest, viaRetry)
  }

  lemma UnclaimedStep(s: Sys, i: InstanceId, rest: set<MarketId>, m: MarketId, viaRetry: bool,
                      gotLock: bool, chainOk: bool, writeOk: bool)
    requires Idle(s, i, rest, m, viaRetry) && !CanClaim(s.markets, m, gotLock)
    ensures Next(s, ClaimMarket(i, WorkItem(m, viaRetry), 0, gotLock))
            == AfterAttempt(s, i, rest, m, viaRetry, gotLock, chainOk, writeOk)
  {
    ItemsRest(m, rest, viaRetry);
  }

  /** The system right after the claim. */
  function AfterClaim(s: Sys, i: InstanceId, rest: set<MarketId>, m: MarketId, viaRetry: bool): Sys
    requires i in s.instances && m in s.markets && Claimable(s.markets[m])
  {
    var k := s.markets[m];
    Sys(s.now, s.markets[m := Claimed(k, s.now)], map[i := Instance(Items(rest, viaRetry), s.instances[i].queue)],
        map[0 := Task(i, m, |k.attempts|, k.proposed.value, viaRetry, Calling)], s.requests)
  }

  lemma ClaimStep(s: Sys, i: InstanceId, rest: set<MarketId>, m: MarketId, viaRetry: bool)
    requires Idle(s, i, rest, m, viaRetry) && CanClaim(s.markets, m, true)
    ensures Next(s, ClaimMarket(i, WorkItem(m, viaRetry), 0, true)) == AfterClaim(s, i, rest, m, viaRetry)
  {
    ItemsRest(m, rest, viaRetry);
  }

  lemma CallStep(s: Sys, i: InstanceId, rest: set<MarketId>, m: MarketId, viaRetry: bool, chainOk: bool)
    requires Idle(s, i, rest, m, viaRetry) && CanClaim(s.markets, m, true)
    ensures
      var s1 := AfterClaim(s, i, rest, m, viaRetry);
      var s2 := NextCall(s1, 0, chainOk);
      && Next(s1, CallChain(0, chainOk)) == s2
      && s2.tasks[0].phase == (if chainOk then Succeeded else Rejected)
  {
  }

  /** The task that is written back, and the system it is written in. */
  lemma WrittenTask(s: Sys, i: InstanceId, rest: set<MarketId>, m: MarketId, viaRetry: bool, chainOk: bool)
    requires Idle(s, i, rest, m, viaRetry) && CanClaim(s.markets, m, true)
    ensures
      var k := s.markets[m];
      var s2 := NextCall(AfterClaim(s, i, rest, m, viaRetry), 0, chainOk);
      var called := WithCall(Claimed(k, s.now), |k.attempts|, k.proposed.value, chainOk, s.now);
      && s2.tasks == map[0 := Task(i, m, |k.attempts|, k.proposed.value, viaRetry,
                                   if chainOk then Succeeded else Rejected)]
      && s2 == Sys(s.now, s.markets[m := called], map[i := Instance(Items(rest, viaRetry), s.instances[i].queue)],
                   s2.tasks, s.requests)
  {
  }

  lemma WrittenBack(s2: Sys, i: InstanceId, m: MarketId, task: Task, inst: Instance)
    requires s2.tasks == map[0 := task] && s2.instances == map[i := inst] && m in s2.markets
    requires task.instance == i && task.market == m && task.phase != Calling
    ensures
      var s3 := NextWriteBack(s2, 0);
      var failed := Enqueued(inst.queue, m, s2.now);
      && s3 == Sys(s2.now, s3.markets, map[i := Instance(inst.work, s3.instances[i].queue)], map[], s2.requests)
      && s3.markets == s2.markets[m := if task.phase == Succeeded
                                       then Finalized(s2.markets[m], task.attempt, task.outcome, s2.now)
                                       else WithStatus(s2.markets[m], task.attempt, Failed)]
      && s3.instances[i].queue == if task.phase == Succeeded
                                  then (if task.viaRetry then inst.queue - {m} else inst.queue)
                                  else (if task.viaRetry then Bumped(failed, m, s2.now) else failed)
  {
    assert s2.tasks - {0} == map[];
  }

  lemma WriteBackStep(s: Sys, i: InstanceId, rest: set<MarketId>, m: MarketId, viaRetry: bool, chainOk: bool)
    requires Idle(s, i, rest, m, viaRetry) && CanClaim(s.markets, m, true)
    ensures
      var s1 := AfterClaim(s, i, rest, m, viaRetry);
      var s2 := NextCall(s1, 0, chainOk);
      Next(s2, WriteBack(0)) == AfterAttempt(s, i, rest, m, viaRetry, true, chainOk, true)
  {
    var s2 := NextCall(AfterClaim(s, i, rest, m, viaRetry), 0, chainOk);
    WrittenTask(s, i, rest, m, viaRetry, chainOk);
    WrittenBack(s2, i, m, s2.tasks[0], s2.instances[i]);
    assert Next(s2, WriteBack(0)) == NextWriteBack(s2, 0);
  }

  lemma AbandonStep(s: Sys, i: InstanceId, rest: set<MarketId>, m: MarketId, viaRetry: bool, chainOk: bool)
    requires Idle(s, i, rest, m, viaRetry) && CanClaim(s.markets, m, true)
    ensures
      var s1 := AfterClaim(s, i, rest, m, viaRetry);
      var s2 := NextCall(s1, 0, chainOk);
      Next(s2, Abandon(0)) == AfterAttempt(s, i, rest, m, viaRetry, true, chainOk, false)
  {
    var s2 := NextCall(AfterClaim(s, i, rest, m, viaRetry), 0, chainOk);
    assert s2.tasks - {0} == map[];
  }

  /**
   One attempt, sequentially executed, is exactly its claim, its call and its write-back,
   or the abandoned settlement when that write fails.
   */
  lemma AttemptLeads(start: Sys, done: seq<Step>, n: nat, s: Sys, i: InstanceId, rest: set<MarketId>, m: MarketId,
                     viaRetry: bool, gotLock: bool, chainOk: bool, writeOk: bool) returns (steps: seq<Step>)
    requires Leads(start, done, s, n) && Idle(s, i, rest, m, viaRetry)
    ensures Leads(start, steps, AfterAttempt(s, i, rest, m, viaRetry, gotLock, chainOk, writeOk),
                  n + if TurnOf(s.markets, m, gotLock, chainOk, writeOk) == Finished then 1 else 0)
  {
    var claim := ClaimMarket(i, WorkItem(m, viaRetry), 0, gotLock);
    LeadsOne(s, claim);
    var end := AfterAttempt(s, i, rest, m, viaRetry, gotLock, chainOk, writeOk);
    if CanClaim(s.markets, m, gotLock) {
      ClaimStep(s, i, rest, m, viaRetry);
      var s1 := AfterClaim(s, i, rest, m, viaRetry);
      LeadsOn(start, done, s, n, [claim], s1, 0);
      steps := ClaimedLeads(start, done + [claim], n, s, i, rest, m, viaRetry, chainOk, writeOk);
    } else {
      UnclaimedStep(s, i, rest, m, viaRetry, gotLock, chainOk, writeOk);
      LeadsOn(start, done, s, n, [claim], end, 0);
      steps := done + [claim];
    }
  }

  lemma ClaimedLeads(start: Sys, done: seq<Step>, n: nat, s: Sys, i: InstanceId, rest: set<MarketId>, m: MarketId,
                     viaRetry: bool, chainOk: bool, writeOk: bool) returns (steps: seq<Step>)
    requires Idle(s, i, rest, m, viaRetry) && CanClaim(s.markets, m, true)
    requires Leads(start, done, AfterClaim(s, i, rest, m, viaRetry), n)
    ensures Leads(start, steps, AfterAttempt(s, i, rest, m, viaRetry, true, chainOk, writeOk),
                  n + if chainOk && writeOk then 1 else 0)
  {
    var s1 := AfterClaim(s, i, rest, m, viaRetry);
    var s2 := NextCall(s1, 0, chainOk);
    var call := CallChain(0, chainOk);
    var last := if writeOk then WriteBack(0) else Abandon(0);
    CallStep(s, i, rest, m, viaRetry, chainOk);
    LeadsOne(s1, call);
    LeadsOn(start, done, s1, n, [call], s2, 0);
    if writeOk {
      WriteBackStep(s, i, rest, m, viaRetry, chainOk);
    } else {
      AbandonStep(s, i, rest, m, viaRetry, chainOk);
    }
    LeadsOne(s2, last);
    LeadsOn(start, done + [call], s2, n, [last], Next(s2, last), if chainOk && writeOk then 1 else 0);
    steps := done + [call] + [last];
  }
}
