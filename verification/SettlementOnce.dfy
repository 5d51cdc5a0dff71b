/**
 When a market is resolved on chain at most once by the scheduler: a property of each
 claim, since the call follows its claim outside any lock.
 */
module SettlementOnce {
  import opened Text
  import opened SettlementState
  import opened Settlement
  import opened SettlementSafety
  import opened SettlementRecovery

  predicate IsSuccess(c: ChainCall) {
    c.attempt.Some? && c.ok
  }

  /** The scheduler resolved the market at most once. */
  predicate AtMostOnce(k: Market) {
    forall i, j :: 0 <= i < j < |k.calls| && IsSuccess(k.calls[i]) ==> !IsSuccess(k.calls[j])
  }

  predicate NeverResolved(k: Market) {
    forall j :: 0 <= j < |k.calls| ==> !IsSuccess(k.calls[j])
  }

  predicate IsCalling(s: Sys, t: TaskId, m: MarketId) {
    t in s.tasks && s.tasks[t].market == m && s.tasks[t].phase == Calling
  }

  predicate NoneCalling(s: Sys, m: MarketId) {
    forall t :: t in s.tasks ==> !IsCalling(s, t, m)
  }

  /** `step` is a claim of `m` that goes through. */
  predicate ClaimsMarket(s: Sys, step: Step, m: MarketId) {
    step.ClaimMarket? && step.item.market == m && step.item in InstanceOf(s, step.i).work && step.t !in s.tasks
    && step.gotLock && m in s.markets && Claimable(s.markets[m])
  }

  /** The scheduler has not resolved `m` yet and is not about to. */
  predicate NobodyElse(s: Sys, m: MarketId)
    requires m in s.markets
  {
    NeverResolved(s.markets[m]) && NoneCalling(s, m)
  }

  predicate OnceInv(s: Sys, m: MarketId)
    requires m in s.markets
  {
    && AtMostOnce(s.markets[m])
    && (forall t, u :: t in s.tasks && u in s.tasks && IsCalling(s, t, m) && IsCalling(s, u, m) ==> t == u)
    && (NeverResolved(s.markets[m]) || NoneCalling(s, m))
  }

  // -------------------------------------------------------------------- preservation

  lemma CallKeepsOnce(s: Sys, t: TaskId, chainOk: bool, m: MarketId)
    requires m in s.markets && OnceInv(s, m)
    requires t in s.tasks && s.tasks[t].phase == Calling && s.tasks[t].market in s.markets
    ensures OnceInv(NextCall(s, t, chainOk), m)
  {
    if s.tasks[t].market == m {
      assert IsCalling(s, t, m);
    }
    forall u | IsCalling(NextCall(s, t, chainOk), u, m) ensures IsCalling(s, u, m) && u != t {
    }
  }

  /** Everything but a claim and a scheduler's call leaves the scheduler's successes and pending calls alone. */
  lemma OthersKeepOnce(s: Sys, step: Step, m: MarketId)
    requires m in s.markets && OnceInv(s, m) && !step.ClaimMarket? && !step.CallChain?
    ensures m in Next(s, step).markets && OnceInv(Next(s, step), m)
  {
    if IsSchedulerStep(step) {
      SchedulerKeepsOnce(s, step, m);
    } else {
      UserKeepsOnce(s, step, m);
    }
  }

  /** Settlements only begin with a claim and only call by a call. */
  lemma NothingBegins(s: Sys, step: Step, m: MarketId)
    requires !step.ClaimMarket?
    ensures forall t :: t in Next(s, step).tasks && Next(s, step).tasks[t].phase != Calling && !step.CallChain?
                        ==> t in s.tasks && Next(s, step).tasks[t] == s.tasks[t]
    ensures forall t :: IsCalling(Next(s, step), t, m) ==> IsCalling(s, t, m)
  {
  }

  lemma SchedulerKeepsCalls(s: Sys, step: Step, m: MarketId)
    requires m in s.markets && IsSchedulerStep(step) && !step.CallChain?
    ensures m in Next(s, step).markets && Next(s, step).markets[m].calls == s.markets[m].calls
  {
  }

  lemma SchedulerKeepsOnce(s: Sys, step: Step, m: MarketId)
    requires m in s.markets && OnceInv(s, m) && IsSchedulerStep(step) && !step.ClaimMarket? && !step.CallChain?
    ensures m in Next(s, step).markets && OnceInv(Next(s, step), m)
  {
    SchedulerKeepsCalls(s, step, m);
    NothingBegins(s, step, m);
  }

  /** Users and admins leave the attempts, the scheduler's calls and the settlements alone. */
  lemma UserMoves(s: Sys, step: Step, m: MarketId)
    requires m in s.markets && !IsSchedulerStep(step)
    ensures
      var s' := Next(s, step);
      && m in s'.markets && s'.tasks == s.tasks && s'.markets[m].attempts == s.markets[m].attempts
      && SchedulerCallsKept(s.markets[m], s'.markets[m])
  {
  }

  predicate SchedulerCallsKept(k: Market, k': Market) {
    && |k.calls| <= |k'.calls| && k'.calls[..|k.calls|] == k.calls
    && forall j :: |k.calls| <= j < |k'.calls| ==> k'.calls[j].attempt.None?
  }

  lemma KeptCall(k: Market, k': Market, j: nat)
    requires SchedulerCallsKept(k, k') && j < |k'.calls| && k'.calls[j].attempt.Some?
    ensures j < |k.calls| && k'.calls[j] == k.calls[j]
  {
    if j < |k.calls| {
      assert k'.calls[..|k.calls|][j] == k'.calls[j];
    }
  }

  lemma UserKeepsOnce(s: Sys, step: Step, m: MarketId)
    requires m in s.markets && OnceInv(s, m) && !IsSchedulerStep(step)
    ensures m in Next(s, step).markets && OnceInv(Next(s, step), m)
  {
    UserMoves(s, step, m);
    var k, k' := s.markets[m], Next(s, step).markets[m];
    forall j | 0 <= j < |k'.calls| && IsSuccess(k'.calls[j]) ensures j < |k.calls| && k'.calls[j] == k.calls[j] {
      KeptCall(k, k', j);
    }
  }

  lemma RefusedClaimKeepsOnce(s: Sys, step: Step, m: MarketId)
    requires m in s.markets && OnceInv(s, m) && step.ClaimMarket? && !ClaimsMarket(s, step, m)
    ensures m in Next(s, step).markets && OnceInv(Next(s, step), m)
  {
    var s' := Next(s, step);
    assert s'.markets[m] == s.markets[m];
    forall u | IsCalling(s', u, m) ensures IsCalling(s, u, m) {
    }
  }

  lemma SoleClaimKeepsOnce(s: Sys, step: Step, m: MarketId)
    requires ClaimsMarket(s, step, m) && NobodyElse(s, m)
    ensures m in Next(s, step).markets && OnceInv(Next(s, step), m)
  {
    var s' := Next(s, step);
    assert s'.markets[m].calls == s.markets[m].calls;
    forall u | IsCalling(s', u, m) ensures u == step.t {
      assert u != step.t ==> IsCalling(s, u, m);
    }
  }

  lemma NextKeepsOnce(s: Sys, step: Step, m: MarketId)
    requires m in s.markets && OnceInv(s, m) && (ClaimsMarket(s, step, m) ==> NobodyElse(s, m))
    ensures m in Next(s, step).markets && OnceInv(Next(s, step), m)
  {
    match step
    case ClaimMarket(i, item, t, gotLock) =>
      if ClaimsMarket(s, step, m) {
        SoleClaimKeepsOnce(s, step, m);
      } else {
        RefusedClaimKeepsOnce(s, step, m);
      }
    case CallChain(t, chainOk) =>
      if t in s.tasks && s.tasks[t].phase == Calling && s.tasks[t].market in s.markets {
        CallKeepsOnce(s, t, chainOk, m);
      }
    case _ =>
      OthersKeepOnce(s, step, m);
  }

  // -------------------------------------------------------------------- the theorems

  predicate Unclaimed(s: Sys, steps: seq<Step>, m: MarketId)
    decreases |steps|
  {
    steps == [] || (!ClaimsMarket(s, steps[0], m) && Unclaimed(Next(s, steps[0]), steps[1..], m))
  }

  /** However the run goes on without another claim of `m`, the scheduler resolves it at most once. */
  ghost predicate OnceEverAfter(s: Sys, m: MarketId) {
    forall more :: Unclaimed(s, more, m) && m in Run(s, more).markets ==> AtMostOnce(Run(s, more).markets[m])
  }

  lemma {:induction false} StaysOnce(s: Sys, steps: seq<Step>, m: MarketId)
    requires m in s.markets && OnceInv(s, m) && Unclaimed(s, steps, m)
    ensures m in Run(s, steps).markets && AtMostOnce(Run(s, steps).markets[m])
    decreases |steps|
  {
    if steps != [] {
      NextKeepsOnce(s, steps[0], m);
      StaysOnce(Next(s, steps[0]), steps[1..], m);
    }
  }

  lemma CallSucceeds(s: Sys, t: TaskId, m: MarketId)
    requires m in s.markets && IsCalling(s, t, m)
    ensures
      var s' := Next(s, CallChain(t, true));
      && m in s'.markets && s'.tasks.Keys == s.tasks.Keys
      && (forall u :: u != t && IsCalling(s, u, m) ==> IsCalling(s', u, m))
      && |s'.markets[m].calls| == |s.markets[m].calls| + 1
      && s'.markets[m].calls[..|s.markets[m].calls|] == s.markets[m].calls
      && IsSuccess(s'.markets[m].calls[|s.markets[m].calls|])
  {
  }

  lemma TwoSuccesses(k: Market, i: nat, j: nat)
    requires i < j < |k.calls| && IsSuccess(k.calls[i]) && IsSuccess(k.calls[j])
    ensures !AtMostOnce(k)
  {
  }

  /** A pending call after a success, and two pending calls, can both end in a second success. */
  lemma SecondSuccess(s: Sys, t: TaskId, m: MarketId)
    requires m in s.markets && IsCalling(s, t, m) && !NeverResolved(s.markets[m])
    ensures !OnceEverAfter(s, m)
  {
    var k := s.markets[m];
    var i :| 0 <= i < |k.calls| && IsSuccess(k.calls[i]);
    var call := CallChain(t, true);
    CallSucceeds(s, t, m);
    var k' := Next(s, call).markets[m];
    assert k'.calls[..|k.calls|][i] == k.calls[i];
    TwoSuccesses(k', i, |k.calls|);
    RunOne(s, call);
    assert Unclaimed(s, [call], m);
  }

  lemma TwoPendingCalls(s: Sys, t: TaskId, u: TaskId, m: MarketId)
    requires m in s.markets && IsCalling(s, t, m) && IsCalling(s, u, m) && t != u
    ensures !OnceEverAfter(s, m)
  {
    var first := CallChain(t, true);
    CallSucceeds(s, t, m);
    var s' := Next(s, first);
    SecondSuccess(s', u, m);
    var more :| Unclaimed(s', more, m) && m in Run(s', more).markets && !AtMostOnce(Run(s', more).markets[m]);
    assert ([first] + more)[1..] == more;
    assert Unclaimed(s, [first] + more, m) && Run(s, [first] + more) == Run(s', more);
  }

  lemma ClaimKeepsOthers(s: Sys, step: Step, m: MarketId)
    requires ClaimsMarket(s, step, m)
    ensures
      var s' := Next(s, step);
      && m in s'.markets && s'.markets[m].calls == s.markets[m].calls && IsCalling(s', step.t, m)
      && forall u :: IsCalling(s, u, m) ==> IsCalling(s', u, m)
  {
  }

  /**
   The exact condition: a claim of a market keeps "resolved at most once" in every
   continuation without another claim if and only if at that moment the scheduler has not
   resolved the market yet and no other settlement of it is about to call the chain.
   */
  lemma ClaimResolvesOnceIff(s: Sys, step: Step, m: MarketId)
    requires ClaimsMarket(s, step, m)
    ensures OnceEverAfter(Next(s, step), m) <==> NobodyElse(s, m)
  {
    var s' := Next(s, step);
    ClaimKeepsOthers(s, step, m);
    if NobodyElse(s, m) {
      SoleClaimKeepsOnce(s, step, m);
      forall more | Unclaimed(s', more, m) && m in Run(s', more).markets ensures AtMostOnce(Run(s', more).markets[m]) {
        StaysOnce(s', more, m);
      }
    } else if !NeverResolved(s.markets[m]) {
      SecondSuccess(s', step.t, m);
    } else {
      var u :| u in s.tasks && IsCalling(s, u, m);
      TwoPendingCalls(s', step.t, u, m);
    }
  }

  /** Every claim of `m` in the run is made when nobody else resolved or is resolving it. */
  predicate ClaimsAlone(s: Sys, steps: seq<Step>, m: MarketId)
    decreases |steps|
  {
    steps == []
    || ((ClaimsMarket(s, steps[0], m) && m in s.markets ==> NobodyElse(s, m))
        && ClaimsAlone(Next(s, steps[0]), steps[1..], m))
  }

  lemma {:induction false} ClaimsAloneKeepOnce(s: Sys, steps: seq<Step>, m: MarketId)
    requires m in s.markets && OnceInv(s, m) && ClaimsAlone(s, steps, m)
    ensures m in Run(s, steps).markets && AtMostOnce(Run(s, steps).markets[m])
    decreases |steps|
  {
    if steps != [] {
      NextKeepsOnce(s, steps[0], m);
      ClaimsAloneKeepOnce(Next(s, steps[0]), steps[1..], m);
    }
  }

  /** In every run whose claims meet that condition the scheduler resolves a market at most once. */
  lemma ResolvedAtMostOnce(s0: Sys, steps: seq<Step>, m: MarketId)
    requires Initial(s0) && m in s0.markets && ClaimsAlone(s0, steps, m)
    ensures m in Run(s0, steps).markets && AtMostOnce(Run(s0, steps).markets[m])
  {
    assert IsFresh(s0.markets[m]);
    ClaimsAloneKeepOnce(s0, steps, m);
  }

  // ------------------------------------------------- what a claimer can read in the rows

  /** No attempt that succeeded on chain is written down as FAILED. */
  predicate SuccessesStand(k: Market) {
    forall j :: 0 <= j < |k.calls| && IsSuccess(k.calls[j]) && k.calls[j].attempt.value < |k.attempts|
      ==> k.attempts[k.calls[j].attempt.value].status != Failed
  }

  predicate NeverSucceeded(k: Market, attempt: nat) {
    forall j :: 0 <= j < |k.calls| && k.calls[j].attempt == Some(attempt) ==> !k.calls[j].ok
  }

  predicate RejectionsStand(s: Sys, m: MarketId)
    requires m in s.markets
  {
    forall t :: t in s.tasks && s.tasks[t].market == m && s.tasks[t].phase == Rejected ==>
      NeverSucceeded(s.markets[m], s.tasks[t].attempt)
  }

  /** Only failures are written down as FAILED, now and by the settlements in progress. */
  predicate FailuresAreReal(s: Sys, m: MarketId)
    requires m in s.markets
  {
    SuccessesStand(s.markets[m]) && RejectionsStand(s, m)
  }

  /** The claim appends a row; the calls of the earlier ones stay with them. */
  lemma ClaimKeepsReal(s: Sys, step: Step, m: MarketId)
    requires Inv(s) && m in s.markets && FailuresAreReal(s, m) && step.ClaimMarket?
    ensures m in Next(s, step).markets && FailuresAreReal(Next(s, step), m)
  {
    assert RowInv(s.markets[m]);
    ClaimKeepsSuccesses(s, step, m);
    ClaimRejectsNothing(s, step);
  }

  lemma ClaimRejectsNothing(s: Sys, step: Step)
    requires step.ClaimMarket?
    ensures forall t :: t in Next(s, step).tasks && Next(s, step).tasks[t].phase == Rejected
                        ==> t in s.tasks && Next(s, step).tasks[t] == s.tasks[t]
  {
  }

  lemma ClaimKeepsSuccesses(s: Sys, step: Step, m: MarketId)
    requires m in s.markets && RowInv(s.markets[m]) && SuccessesStand(s.markets[m]) && step.ClaimMarket?
    ensures
      m in Next(s, step).markets && SuccessesStand(Next(s, step).markets[m])
      && Next(s, step).markets[m].calls == s.markets[m].calls
  {
  }

  lemma CallKeepsReal(s: Sys, t: TaskId, chainOk: bool, m: MarketId)
    requires Inv(s) && m in s.markets && FailuresAreReal(s, m)
    requires t in s.tasks && s.tasks[t].phase == Calling && s.tasks[t].market in s.markets
    ensures FailuresAreReal(NextCall(s, t, chainOk), m)
  {
    assert TaskInv(s, t);
    if s.tasks[t].market == m {
      CallKeepsSuccesses(s.markets[m], s.tasks[t].attempt, s.tasks[t].outcome, chainOk, s.now);
      CallKeepsRejections(s, t, chainOk);
    }
  }

  lemma CallKeepsRejections(s: Sys, t: TaskId, chainOk: bool)
    requires t in s.tasks && s.tasks[t].phase == Calling && s.tasks[t].market in s.markets
    requires TaskInv(s, t) && TasksDistinct(s) && RejectionsStand(s, s.tasks[t].market)
    ensures RejectionsStand(NextCall(s, t, chainOk), s.tasks[t].market)
  {
    var s' := NextCall(s, t, chainOk);
    var task := s.tasks[t];
    var m := task.market;
    forall u | u in s'.tasks && s'.tasks[u].market == m && s'.tasks[u].phase == Rejected
      ensures NeverSucceeded(s'.markets[m], s'.tasks[u].attempt)
    {
      CallKeepsFailures(s.markets[m], task.attempt, task.outcome, chainOk, s.now, s'.tasks[u].attempt);
    }
  }

  lemma CallKeepsSuccesses(k: Market, attempt: nat, outcome: string, chainOk: bool, now: int)
    requires SuccessesStand(k) && attempt < |k.attempts| && k.attempts[attempt].status == Resolving
    ensures SuccessesStand(WithCall(k, attempt, outcome, chainOk, now))
  {
  }

  lemma CallKeepsFailures(k: Market, attempt: nat, outcome: string, chainOk: bool, now: int, other: nat)
    requires if other == attempt then Uncalled(k, attempt) && !chainOk else NeverSucceeded(k, other)
    ensures NeverSucceeded(WithCall(k, attempt, outcome, chainOk, now), other)
  {
  }

  lemma StatusKeepsSuccesses(k: Market, attempt: nat, status: AttemptStatus)
    requires SuccessesStand(k) && (status == Failed ==> NeverSucceeded(k, attempt))
    ensures SuccessesStand(WithStatus(k, attempt, status))
  {
  }

  lemma WriteBackKeepsReal(s: Sys, t: TaskId, m: MarketId)
    requires m in s.markets && FailuresAreReal(s, m)
    requires t in s.tasks && s.tasks[t].phase != Calling && s.tasks[t].market in s.markets
    ensures m in NextWriteBack(s, t).markets && FailuresAreReal(NextWriteBack(s, t), m)
  {
    if s.tasks[t].market == m {
      WrittenSuccesses(s, t);
    }
  }

  lemma WrittenSuccesses(s: Sys, t: TaskId)
    requires t in s.tasks && s.tasks[t].phase != Calling && s.tasks[t].market in s.markets
    requires FailuresAreReal(s, s.tasks[t].market)
    ensures
      var m := s.tasks[t].market;
      m in NextWriteBack(s, t).markets && SuccessesStand(NextWriteBack(s, t).markets[m])
  {
    var task := s.tasks[t];
    var k := s.markets[task.market];
    if task.phase == Succeeded {
      var settled := k.(state := Settled, resolved := true, resolvedOutcome := Some(task.outcome),
                        resolvedAt := Some(s.now));
      StatusKeepsSuccesses(settled, task.attempt, Resolved);
    } else {
      StatusKeepsSuccesses(k, task.attempt, Failed);
    }
  }

  lemma RequestsKeepReal(s: Sys, step: Step, m: MarketId)
    requires m in s.markets && FailuresAreReal(s, m) && !IsSchedulerStep(step)
    ensures m in Next(s, step).markets && FailuresAreReal(Next(s, step), m)
  {
    UserMoves(s, step, m);
    var k, k' := s.markets[m], Next(s, step).markets[m];
    forall j | 0 <= j < |k'.calls| && k'.calls[j].attempt.Some? ensures j < |k.calls| && k'.calls[j] == k.calls[j] {
      KeptCall(k, k', j);
    }
  }

  lemma ReadersKeepReal(s: Sys, step: Step, m: MarketId)
    requires m in s.markets && FailuresAreReal(s, m) && IsSchedulerStep(step) && !WritesRows(step)
    ensures m in Next(s, step).markets && FailuresAreReal(Next(s, step), m)
  {
    OthersKeepRows(s, step);
    NothingBegins(s, step, m);
  }

  lemma NextKeepsReal(s: Sys, step: Step, m: MarketId)
    requires Inv(s) && m in s.markets && FailuresAreReal(s, m)
    ensures m in Next(s, step).markets && FailuresAreReal(Next(s, step), m)
  {
    if step.ClaimMarket? {
      ClaimKeepsReal(s, step, m);
    } else if !IsSchedulerStep(step) {
      RequestsKeepReal(s, step, m);
    } else if WritesRows(step) {
      WriterKeepsReal(s, step, m);
    } else {
      ReadersKeepReal(s, step, m);
    }
  }

  lemma WriterKeepsReal(s: Sys, step: Step, m: MarketId)
    requires Inv(s) && m in s.markets && FailuresAreReal(s, m) && (step.CallChain? || step.WriteBack?)
    ensures m in Next(s, step).markets && FailuresAreReal(Next(s, step), m)
  {
    if Next(s, step) != s {
      match step
      case CallChain(t, chainOk) => CallKeepsReal(s, t, chainOk, m);
      case WriteBack(t) => WriteBackKeepsReal(s, t, m);
    }
  }

  lemma {:induction false} RunKeepsReal(s: Sys, steps: seq<Step>, m: MarketId)
    requires Inv(s) && m in s.markets && FailuresAreReal(s, m)
    ensures m in Run(s, steps).markets && FailuresAreReal(Run(s, steps), m) && Inv(Run(s, steps))
    decreases |steps|
  {
    if steps != [] {
      NextKeepsReal(s, steps[0], m);
      NextKeepsInv(s, steps[0]);
      RunKeepsReal(Next(s, steps[0]), steps[1..], m);
    }
  }

  /** All attempts at the market are written down as failed. */
  predicate AllFailed(k: Market) {
    forall j :: 0 <= j < |k.attempts| ==> k.attempts[j].status == Failed
  }

  lemma AllFailedMeansNobody(s: Sys, m: MarketId)
    requires Inv(s) && m in s.markets && FailuresAreReal(s, m) && AllFailed(s.markets[m])
    ensures NobodyElse(s, m)
  {
    assert RowInv(s.markets[m]);
    forall t | t in s.tasks ensures !IsCalling(s, t, m) {
      assert TaskInv(s, t);
    }
  }

  /**
   A condition the claimer can check in the rows, after any run: when every attempt at the
   market is written down as failed, nobody else has resolved it or is about to, and a
   claim then keeps "resolved at most once" until the next one.
   */
  lemma FailedRowsResolveOnce(s0: Sys, steps: seq<Step>, step: Step, m: MarketId)
    requires Initial(s0) && m in s0.markets
    requires ClaimsMarket(Run(s0, steps), step, m) && AllFailed(Run(s0, steps).markets[m])
    ensures NobodyElse(Run(s0, steps), m) && OnceEverAfter(Next(Run(s0, steps), step), m)
  {
    assert IsFresh(s0.markets[m]);
    InitialHasInv(s0);
    RunKeepsReal(s0, steps, m);
    AllFailedMeansNobody(Run(s0, steps), m);
    ClaimResolvesOnceIff(Run(s0, steps), step, m);
  }

  /** Every claim of `m` in the run sees only failed attempts. */
  predicate ClaimsSeeFailures(s: Sys, steps: seq<Step>, m: MarketId)
    decreases |steps|
  {
    steps == []
    || ((ClaimsMarket(s, steps[0], m) ==> AllFailed(s.markets[m]))
        && ClaimsSeeFailures(Next(s, steps[0]), steps[1..], m))
  }

  lemma {:induction false} SeeingFailuresIsAlone(s: Sys, steps: seq<Step>, m: MarketId)
    requires Inv(s) && m in s.markets && FailuresAreReal(s, m) && ClaimsSeeFailures(s, steps, m)
    ensures ClaimsAlone(s, steps, m)
    decreases |steps|
  {
    if steps != [] {
      if ClaimsMarket(s, steps[0], m) {
        AllFailedMeansNobody(s, m);
      }
      NextKeepsReal(s, steps[0], m);
      NextKeepsInv(s, steps[0]);
      SeeingFailuresIsAlone(Next(s, steps[0]), steps[1..], m);
    }
  }

  /** In every run whose claims see only failed attempts the scheduler resolves a market at most once. */
  lemma FailedRowsRunOnce(s0: Sys, steps: seq<Step>, m: MarketId)
    requires Initial(s0) && m in s0.markets && ClaimsSeeFailures(s0, steps, m)
    ensures m in Run(s0, steps).markets && AtMostOnce(Run(s0, steps).markets[m])
  {
    assert IsFresh(s0.markets[m]);
    InitialHasInv(s0);
    SeeingFailuresIsAlone(s0, steps, m);
    ResolvedAtMostOnce(s0, steps, m);
  }
}
