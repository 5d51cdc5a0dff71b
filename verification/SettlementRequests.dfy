/**
 Proposals and challenges as the code makes them: the row is read and checked, and the
 whole row is saved later, over whatever happened to it in between.
 */
module SettlementRequests {
  import opened Text
  import opened SettlementState
  import opened Settlement
  import opened SettlementSafety
  import opened SettlementTheorems

  datatype UserRequest = Proposing(outcome: string, grace: Option<nat>, authorized: bool) | Challenging

  /** A request that passed its checks: the row as it was read, and when. */
  datatype Reading = Reading(market: MarketId, row: Market, request: UserRequest, at: int)

  /** The row the request is about to save. */
  function Requested(q: Reading): Result<Market> {
    match q.request
    case Proposing(outcome, grace, authorized) => Propose(q.row, outcome, grace, authorized, q.at)
    case Challenging => Challenge(q.row, q.at)
  }

  /** Saving writes every column of the row that was read; the logs are not columns of it. */
  function Overwritten(current: Market, row: Market): Market {
    row.(attempts := current.attempts, calls := current.calls)
  }

  datatype Wide = Wide(sys: Sys, readings: map<RequestId, Reading>)

  datatype WideStep =
    | Basic(step: Step)
    | Read(r: RequestId, m: MarketId, request: UserRequest)
    | Save(r: RequestId)
    | Drop(r: RequestId)

  function WideNext(w: Wide, step: WideStep): Wide {
    match step
    case Basic(basic) => w.(sys := Next(w.sys, basic))
    case Read(r, m, request) =>
      if r !in w.readings && m in w.sys.markets
         && Requested(Reading(m, w.sys.markets[m], request, w.sys.now)).Ok?
      then w.(readings := w.readings[r := Reading(m, w.sys.markets[m], request, w.sys.now)]) else w
    case Save(r) => if CanSave(w, r) then NextSaved(w, r) else w
    case Drop(r) => w.(readings := w.readings - {r})
  }

  predicate CanSave(w: Wide, r: RequestId) {
    r in w.readings && w.readings[r].market in w.sys.markets && Requested(w.readings[r]).Ok?
  }

  function NextSaved(w: Wide, r: RequestId): Wide
    requires CanSave(w, r)
  {
    var q := w.readings[r];
    var saved := Overwritten(w.sys.markets[q.market], Requested(q).value);
    Wide(w.sys.(markets := w.sys.markets[q.market := saved]), w.readings - {r})
  }

  function WideRun(w: Wide, steps: seq<WideStep>): Wide
    decreases |steps|
  {
    if steps == [] then w else WideRun(WideNext(w, steps[0]), steps[1..])
  }

  // -------------------------------------------------------------------- the invariant

  /** Until the row has left the state that was read, it is the row that was read. */
  predicate ReadingInv(w: Wide, r: RequestId)
    requires r in w.readings
  {
    var q := w.readings[r];
    && q.market in w.sys.markets && Requested(q).Ok? && ReadSince(q.row, q.at, w.sys.now)
    && Follows(q, w.sys.markets[q.market])
  }

  predicate Follows(q: Reading, k: Market) {
    && (k.state == q.row.state ==> k == q.row)
    && (q.request.Challenging? ==>
          k.state != Pending && (k.state == Challenged && Requested(q).Ok? ==> k == Overwritten(k, Requested(q).value)))
  }

  predicate ProposedBefore(s: Sys) {
    forall m :: m in s.markets && s.markets[m].proposedAt.Some? ==> s.markets[m].proposedAt.value <= s.now
  }

  predicate WideInv(w: Wide) {
    Inv(w.sys) && ProposedBefore(w.sys) && forall r :: r in w.readings ==> ReadingInv(w, r)
  }

  // How a row reaches the states in which requests can find it.

  predicate Settles(k: Market, k': Market) {
    && (k'.state == Pending ==> k' == k)
    && (k'.state == Proposed && k.state != Pending ==> k' == k)
    && (k'.state == Challenged && k.state != Pending ==>
          if k.state == Proposed then k' == k.(state := Challenged) else k' == Overwritten(k', k))
    && (k'.proposedAt != k.proposedAt ==> k.state == Pending && k'.state == Proposed)
  }

  lemma ProposalSettles(k: Market, outcome: string, grace: Option<nat>, authorized: bool, at: int)
    requires Propose(k, outcome, grace, authorized, at).Ok?
    ensures Settles(k, Propose(k, outcome, grace, authorized, at).value)
  {
  }

  lemma ChallengeSettles(k: Market, at: int)
    requires Challenge(k, at).Ok?
    ensures Settles(k, Challenge(k, at).value)
  {
  }

  lemma StoredSettles(s: Sys, n: MarketId, r: Result<Market>, m: MarketId)
    requires m in s.markets && n in s.markets && (r.Ok? ==> Settles(s.markets[n], r.value))
    ensures m in Stored(s, n, r).markets && Settles(s.markets[m], Stored(s, n, r).markets[m])
  {
  }

  lemma UserSettles(s: Sys, step: Step, m: MarketId)
    requires m in s.markets && !IsSchedulerStep(step) && !IsAdminStep(step)
    ensures m in Next(s, step).markets && Settles(s.markets[m], Next(s, step).markets[m])
  {
    match step
    case ProposeResolution(n, outcome, grace, authorized, readAt) =>
      if n in s.markets && readAt <= s.now {
        var r := Propose(s.markets[n], outcome, grace, authorized, readAt);
        if r.Ok? {
          ProposalSettles(s.markets[n], outcome, grace, authorized, readAt);
        }
        StoredSettles(s, n, r, m);
      }
    case ChallengeResolution(n, readAt) =>
      if n in s.markets && ReadSince(s.markets[n], readAt, s.now) {
        var r := Challenge(s.markets[n], readAt);
        if r.Ok? {
          ChallengeSettles(s.markets[n], readAt);
        }
        StoredSettles(s, n, r, m);
      }
    case _ =>
  }

  lemma AdminCallSettles(k: Market, outcome: string, chainOk: bool, now: int)
    requires k.state !in {Pending, Proposed}
    ensures Settles(k, AdminCalled(k, outcome, chainOk, now))
  {
  }

  lemma SavedSettles(k: Market, outcome: string, counter: nat, now: int)
    ensures Settles(k, Saved(k, outcome, counter, now))
  {
  }

  lemma AdminSettles(s: Sys, step: Step, m: MarketId)
    requires RequestsInv(s) && m in s.markets && IsAdminStep(step)
    ensures m in Next(s, step).markets && Settles(s.markets[m], Next(s, step).markets[m])
  {
    if step.CallForAdjudication? && IsOpen(s, step.r, Calling) {
      assert RequestInv(s, step.r);
      var q := s.requests[step.r];
      var called := AdminCalled(s.markets[q.market], q.outcome, step.chainOk, s.now);
      AdminCallSettles(s.markets[q.market], q.outcome, step.chainOk, s.now);
      assert NextAdminCall(s, step.r, step.chainOk).markets == s.markets[q.market := called];
    } else if step.SaveAdjudication? && IsOpen(s, step.r, Succeeded) {
      var q := s.requests[step.r];
      SavedSettles(s.markets[q.market], q.outcome, q.counter, s.now);
      assert NextSave(s, step.r).markets
          == s.markets[q.market := Saved(s.markets[q.market], q.outcome, q.counter, s.now)];
    } else {
      AdminKeepsRows(s, step);
    }
  }

  lemma AdminKeepsRows(s: Sys, step: Step)
    requires step.BeginAdjudication? || step.DropAdjudication?
             || (step.CallForAdjudication? && !IsOpen(s, step.r, Calling))
             || (step.SaveAdjudication? && !IsOpen(s, step.r, Succeeded))
    ensures Next(s, step).markets == s.markets
  {
  }

  /** Before a claim the scheduler leaves the row alone, and a claim does not lead back. */
  lemma SchedulerSettles(s: Sys, step: Step, m: MarketId)
    requires Inv(s) && m in s.markets && IsSchedulerStep(step)
    ensures m in Next(s, step).markets && Settles(s.markets[m], Next(s, step).markets[m])
  {
    NextGoesOnward(s, step, m);
    if !WritesRows(step) {
      OthersKeepRows(s, step);
    } else if s.markets[m].state in {Pending, Proposed, Challenged} {
      NoTasksBeforeClaim(s, m);
      assert RowInv(s.markets[m]);
      WriterSettles(s, step, m);
    }
  }

  lemma WriterSettles(s: Sys, step: Step, m: MarketId)
    requires m in s.markets && WritesRows(step) && NoTasks(s, m)
    requires RowInv(s.markets[m])
    ensures
      m in Next(s, step).markets
      && (Next(s, step).markets[m] == s.markets[m]
          || (Next(s, step).markets[m].state == Settling
              && Next(s, step).markets[m].proposedAt == s.markets[m].proposedAt))
  {
  }

  lemma NextSettles(s: Sys, step: Step, m: MarketId)
    requires Inv(s) && m in s.markets
    ensures m in Next(s, step).markets && Settles(s.markets[m], Next(s, step).markets[m])
  {
    if IsSchedulerStep(step) {
      SchedulerSettles(s, step, m);
    } else if IsAdminStep(step) {
      AdminSettles(s, step, m);
    } else {
      UserSettles(s, step, m);
    }
  }

  lemma FollowsOn(q: Reading, k: Market, k': Market)
    requires Requested(q).Ok? && Follows(q, k) && Settles(k, k')
    ensures Follows(q, k')
  {
  }

  lemma ProposedInPast(s: Sys, step: Step)
    requires Inv(s) && ProposedBefore(s)
    ensures ProposedBefore(Next(s, step))
  {
    var s' := Next(s, step);
    NextKeepsMarkets(s, step);
    forall m | m in s'.markets && s'.markets[m].proposedAt.Some? ensures s'.markets[m].proposedAt.value <= s'.now {
      NextSettles(s, step, m);
      TimeGoesOn(s, step);
      if s'.markets[m].proposedAt != s.markets[m].proposedAt {
        OnlyProposalsPropose(s, step, m);
      }
    }
  }

  lemma TimeGoesOn(s: Sys, step: Step)
    ensures Next(s, step).now >= s.now
  {
  }

  lemma OnlyProposalsPropose(s: Sys, step: Step, m: MarketId)
    requires Inv(s) && m in s.markets && m in Next(s, step).markets && s.markets[m].state == Pending
    requires Next(s, step).markets[m].state == Proposed
    ensures Next(s, step).markets[m].proposedAt.Some? && Next(s, step).markets[m].proposedAt.value <= s.now
  {
    if IsSchedulerStep(step) {
      SchedulerProposesNothing(s, step, m);
    } else {
      ProposedAtReading(s, step, m);
    }
  }

  lemma SchedulerProposesNothing(s: Sys, step: Step, m: MarketId)
    requires Inv(s) && m in s.markets && IsSchedulerStep(step) && s.markets[m].state == Pending
    ensures m in Next(s, step).markets && Next(s, step).markets[m].state != Proposed
  {
    assert RowInv(s.markets[m]);
    NoTasksBeforeClaim(s, m);
    if WritesRows(step) {
      WriterSettles(s, step, m);
    } else {
      OthersKeepRows(s, step);
    }
  }

  lemma ProposedAtReading(s: Sys, step: Step, m: MarketId)
    requires m in s.markets && !IsSchedulerStep(step) && s.markets[m].state == Pending
    requires m in Next(s, step).markets && Next(s, step).markets[m].state == Proposed
    ensures Next(s, step).markets[m].proposedAt.Some? && Next(s, step).markets[m].proposedAt.value <= s.now
  {
  }

  /** A step of the system keeps what holds of the readings. */
  lemma BasicKeepsInv(w: Wide, step: Step)
    requires WideInv(w)
    ensures WideInv(WideNext(w, Basic(step)))
  {
    var w' := WideNext(w, Basic(step));
    NextKeepsInv(w.sys, step);
    ProposedInPast(w.sys, step);
    TimeGoesOn(w.sys, step);
    forall r | r in w'.readings ensures ReadingInv(w', r) {
      var q := w.readings[r];
      assert ReadingInv(w, r);
      NextSettles(w.sys, step, q.market);
      FollowsOn(q, w.sys.markets[q.market], w'.sys.markets[q.market]);
    }
  }

  lemma ReadKeepsInv(w: Wide, r: RequestId, m: MarketId, request: UserRequest)
    requires WideInv(w)
    ensures WideInv(WideNext(w, Read(r, m, request)))
  {
    var w' := WideNext(w, Read(r, m, request));
    forall p | p in w'.readings ensures ReadingInv(w', p) {
      if p in w.readings {
        assert ReadingInv(w, p);
      }
    }
  }

  lemma DropKeepsInv(w: Wide, r: RequestId)
    requires WideInv(w)
    ensures WideInv(WideNext(w, Drop(r)))
  {
    var w' := WideNext(w, Drop(r));
    forall p | p in w'.readings ensures ReadingInv(w', p) {
      assert ReadingInv(w, p);
    }
  }

  // ----------------------------------------------------------------- saves in time

  /** The row still has the state that was read, or the save changes nothing. */
  predicate InTime(w: Wide, r: RequestId)
    requires CanSave(w, r)
  {
    var q := w.readings[r];
    var k := w.sys.markets[q.market];
    k.state == q.row.state || k == Overwritten(k, Requested(q).value)
  }

  /** The request as one step, made when it saves. */
  function AsStep(q: Reading): Step {
    match q.request
    case Proposing(outcome, grace, authorized) => ProposeResolution(q.market, outcome, grace, authorized, q.at)
    case Challenging => ChallengeResolution(q.market, q.at)
  }

  /** A save does what some step of the system does, or nothing. */
  ghost predicate Harmless(w: Wide, r: RequestId) {
    var s' := WideNext(w, Save(r)).sys;
    s' == w.sys || exists step :: s' == Next(w.sys, step)
  }

  lemma SaveInTime(w: Wide, r: RequestId)
    requires WideInv(w) && CanSave(w, r) && InTime(w, r)
    ensures WideNext(w, Save(r)).sys in {w.sys, Next(w.sys, AsStep(w.readings[r]))}
  {
    assert ReadingInv(w, r);
    var q := w.readings[r];
    var k := w.sys.markets[q.market];
    if k == Overwritten(k, Requested(q).value) {
      assert w.sys.markets[q.market := k] == w.sys.markets;
    } else {
      assert k == q.row && Overwritten(k, Requested(q).value) == Requested(q).value;
    }
  }

  /**
   The exact condition for one save: it does what a step of the system does, if and only if
   the row still has the state that was read or the save changes nothing.
   */
  lemma SaveHarmlessIff(w: Wide, r: RequestId)
    requires WideInv(w) && CanSave(w, r)
    ensures Harmless(w, r) <==> InTime(w, r)
  {
    if InTime(w, r) {
      SaveInTime(w, r);
    } else {
      var s' := WideNext(w, Save(r)).sys;
      var m := w.readings[r].market;
      LateSaveUnsettles(w, r);
      forall step ensures s' != Next(w.sys, step) {
        NextSettles(w.sys, step, m);
      }
    }
  }

  lemma LateRowUnsettles(q: Reading, k: Market)
    requires Requested(q).Ok? && Follows(q, k) && k.state != q.row.state
    ensures
      var k' := Overwritten(k, Requested(q).value);
      k' != k ==> !Settles(k, k')
  {
  }

  lemma LateSaveUnsettles(w: Wide, r: RequestId)
    requires WideInv(w) && CanSave(w, r) && !InTime(w, r)
    ensures
      var m := w.readings[r].market;
      var s' := WideNext(w, Save(r)).sys;
      m in s'.markets && s'.markets[m] != w.sys.markets[m] && !Settles(w.sys.markets[m], s'.markets[m])
  {
    assert ReadingInv(w, r);
    LateRowUnsettles(w.readings[r], w.sys.markets[w.readings[r].market]);
  }

  /** A challenge is in time exactly as long as the market is not claimed or settled. */
  lemma ChallengeInTimeIff(w: Wide, r: RequestId)
    requires WideInv(w) && CanSave(w, r) && w.readings[r].request.Challenging?
    ensures InTime(w, r) <==> w.sys.markets[w.readings[r].market].state in {Proposed, Challenged}
  {
    assert ReadingInv(w, r);
  }

  // --------------------------------------------------------------------- whole runs

  /** Every save of the run is in time. */
  predicate SavesInTime(w: Wide, steps: seq<WideStep>)
    decreases |steps|
  {
    steps == []
    || ((steps[0].Save? && CanSave(w, steps[0].r) ==> InTime(w, steps[0].r))
        && SavesInTime(WideNext(w, steps[0]), steps[1..]))
  }

  lemma SavedIs(w: Wide, r: RequestId)
    requires CanSave(w, r)
    ensures WideNext(w, Save(r)) == Wide(WideNext(w, Save(r)).sys, w.readings - {r})
  {
  }

  lemma SaveKeepsInv(w: Wide, r: RequestId)
    requires WideInv(w) && CanSave(w, r) && InTime(w, r)
    ensures WideInv(WideNext(w, Save(r)))
  {
    SaveInTime(w, r);
    SavedIs(w, r);
    if WideNext(w, Save(r)).sys == w.sys {
      DropKeepsInv(w, r);
    } else {
      BasicKeepsInv(w, AsStep(w.readings[r]));
      DropKeepsInv(w.(sys := Next(w.sys, AsStep(w.readings[r]))), r);
    }
  }

  lemma WideNextKeepsInv(w: Wide, step: WideStep)
    requires WideInv(w) && (step.Save? && CanSave(w, step.r) ==> InTime(w, step.r))
    ensures WideInv(WideNext(w, step))
  {
    match step
    case Basic(basic) => BasicKeepsInv(w, basic);
    case Read(r, m, request) => ReadKeepsInv(w, r, m, request);
    case Save(r) =>
      if CanSave(w, r) {
        SaveKeepsInv(w, r);
      }
    case Drop(r) => DropKeepsInv(w, r);
  }

  lemma WideNextAsRun(w: Wide, step: WideStep) returns (basics: seq<Step>)
    requires WideInv(w) && (step.Save? && CanSave(w, step.r) ==> InTime(w, step.r))
    ensures Run(w.sys, basics) == WideNext(w, step).sys
  {
    basics := [];
    match step
    case Basic(basic) =>
      basics := [basic];
      RunCons(w.sys, basic, []);
      assert [basic] + [] == [basic];
    case Save(r) =>
      if CanSave(w, r) {
        SaveInTime(w, r);
        if WideNext(w, step).sys != w.sys {
          basics := [AsStep(w.readings[r])];
          RunCons(w.sys, basics[0], []);
          assert basics + [] == basics;
        }
      }
    case _ =>
  }

  lemma {:induction false} WideRunAsRun(w: Wide, steps: seq<WideStep>) returns (basics: seq<Step>)
    requires WideInv(w) && SavesInTime(w, steps)
    ensures Run(w.sys, basics) == WideRun(w, steps).sys && WideInv(WideRun(w, steps))
    decreases |steps|
  {
    if steps == [] {
      basics := [];
    } else {
      var first := WideNextAsRun(w, steps[0]);
      WideNextKeepsInv(w, steps[0]);
      var rest := WideRunAsRun(WideNext(w, steps[0]), steps[1..]);
      basics := first + rest;
      RunAppend(w.sys, first, rest);
    }
  }

  lemma InitialHasWideInv(s: Sys)
    requires Initial(s)
    ensures WideInv(Wide(s, map[]))
  {
    InitialHasInv(s);
  }

  /**
   A run of separate readings and savings in which every save is in time is, for rows,
   settlements and memory, a run of the system: every theorem about runs holds of it.
   */
  lemma RequestsRefineRuns(s0: Sys, steps: seq<WideStep>) returns (basics: seq<Step>)
    requires Initial(s0) && SavesInTime(Wide(s0, map[]), steps)
    ensures WideRun(Wide(s0, map[]), steps).sys == Run(s0, basics)
    ensures WideInv(WideRun(Wide(s0, map[]), steps))
  {
    InitialHasWideInv(s0);
    basics := WideRunAsRun(Wide(s0, map[]), steps);
  }

  // ----------------------------------------------------------------------- the freeze

  /** Through every run without an adjudication of `m` its row stays as it is. */
  ghost predicate Frozen(s: Sys, m: MarketId)
    requires m in s.markets
  {
    forall more :: Quiet(s, more, m) ==> m in Run(s, more).markets && Run(s, more).markets[m] == s.markets[m]
  }

  lemma NoTasksStay(s: Sys, step: Step, m: MarketId)
    requires NoTasks(s, m) && m in s.markets && s.markets[m].state == Challenged
    ensures NoTasks(Next(s, step), m)
  {
  }

  lemma {:induction false} ChallengedStays(s: Sys, steps: seq<Step>, m: MarketId)
    requires NoTasks(s, m) && m in s.markets && s.markets[m].state == Challenged && Quiet(s, steps, m)
    ensures m in Run(s, steps).markets && Run(s, steps).markets[m] == s.markets[m]
    decreases |steps|
  {
    if steps != [] {
      FrozenStep(s, steps[0], m);
      NoTasksStay(s, steps[0], m);
      ChallengedStays(Next(s, steps[0]), steps[1..], m);
    }
  }

  /** A settlement in progress changes the row by its call or by its write. */
  lemma TaskThaws(s: Sys, t: TaskId, m: MarketId)
    requires m in s.markets && s.markets[m].state == Challenged && t in s.tasks && s.tasks[t].market == m
    requires
      var a := s.tasks[t].attempt;
      a < |s.markets[m].attempts| && s.markets[m].attempts[a].status == Resolving
    ensures !Frozen(s, m)
  {
    var step := if s.tasks[t].phase == Calling then CallChain(t, true) else WriteBack(t);
    var k, k' := s.markets[m], Next(s, step).markets[m];
    if s.tasks[t].phase == Calling {
      assert |k'.calls| == |k.calls| + 1;
    } else if s.tasks[t].phase == Succeeded {
      assert k'.state == Settled;
    } else {
      assert k'.attempts[s.tasks[t].attempt].status == Failed;
    }
    RunCons(s, step, []);
    assert [step] + [] == [step] && Quiet(s, [step], m);
    assert Run(s, [step]).markets[m] != s.markets[m];
  }

  /**
   The exact condition for the freeze: saving a challenge freezes the market if and only if
   no settlement of it is in progress, in particular whenever the save is in time.
   */
  lemma ChallengeFreezesIff(w: Wide, r: RequestId)
    requires WideInv(w) && CanSave(w, r) && w.readings[r].request.Challenging?
    ensures
      var m := w.readings[r].market;
      && WideNext(w, Save(r)).sys.markets[m].state == Challenged
      && (Frozen(WideNext(w, Save(r)).sys, m) <==> NoTasks(w.sys, m))
      && (InTime(w, r) ==> NoTasks(w.sys, m))
  {
    var m := w.readings[r].market;
    var s' := WideNext(w, Save(r)).sys;
    if NoTasks(w.sys, m) {
      forall more | Quiet(s', more, m) ensures m in Run(s', more).markets && Run(s', more).markets[m] == s'.markets[m] {
        ChallengedStays(s', more, m);
      }
    } else {
      var t :| t in w.sys.tasks && w.sys.tasks[t].market == m;
      assert TaskInv(w.sys, t);
      TaskThaws(s', t, m);
    }
    ChallengeInTimeIff(w, r);
    if InTime(w, r) {
      NoTasksBeforeClaim(w.sys, m);
    }
  }

  /** No step of the run adjudicates `m`. */
  predicate WideQuiet(w: Wide, steps: seq<WideStep>, m: MarketId)
    decreases |steps|
  {
    steps == []
    || ((steps[0].Basic? ==> !Adjudicates(w.sys, steps[0].step, m))
        && WideQuiet(WideNext(w, steps[0]), steps[1..], m))
  }

  lemma WideFrozenStep(w: Wide, step: WideStep, m: MarketId)
    requires WideInv(w) && m in w.sys.markets && w.sys.markets[m].state == Challenged
    requires step.Save? && CanSave(w, step.r) ==> InTime(w, step.r)
    requires step.Basic? ==> !Adjudicates(w.sys, step.step, m)
    ensures m in WideNext(w, step).sys.markets && WideNext(w, step).sys.markets[m] == w.sys.markets[m]
  {
    NoTasksBeforeClaim(w.sys, m);
    match step
    case Basic(basic) => FrozenStep(w.sys, basic, m);
    case Save(r) =>
      if CanSave(w, r) {
        SaveInTime(w, r);
        FrozenStep(w.sys, AsStep(w.readings[r]), m);
      }
    case _ =>
  }

  /** A challenged market is frozen through every run without its adjudication whose saves are in time. */
  lemma {:induction false} ChallengeFreezesInTime(w: Wide, steps: seq<WideStep>, m: MarketId)
    requires WideInv(w) && m in w.sys.markets && w.sys.markets[m].state == Challenged
    requires SavesInTime(w, steps) && WideQuiet(w, steps, m)
    ensures m in WideRun(w, steps).sys.markets && WideRun(w, steps).sys.markets[m] == w.sys.markets[m]
    decreases |steps|
  {
    if steps != [] {
      WideFrozenStep(w, steps[0], m);
      WideNextKeepsInv(w, steps[0]);
      ChallengeFreezesInTime(WideNext(w, steps[0]), steps[1..], m);
    }
  }
}
