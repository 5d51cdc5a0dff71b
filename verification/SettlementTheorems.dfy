/** The promises of the settlement workflow, over whole runs. */
module SettlementTheorems {
  import opened Text
  import opened SettlementState
  import opened Settlement
  import opened SettlementSafety

  // ----------------------------------------------------------------- SETTLED

  /** Whatever happens to a row, in whatever state of the system, SETTLED is never left. */
  lemma {:induction false} SettledForever(s: Sys, steps: seq<Step>, m: MarketId)
    requires m in s.markets && s.markets[m].state == Settled
    ensures m in Run(s, steps).markets && Run(s, steps).markets[m].state == Settled
    decreases |steps|
  {
    if steps != [] {
      NextGoesOnward(s, steps[0], m);
      SettledForever(Next(s, steps[0]), steps[1..], m);
    }
  }

  // ------------------------------------------------------------------ budget

  /** How many chain calls the scheduler made. */
  function SchedulerCalls(calls: seq<ChainCall>): nat {
    if calls == [] then 0
    else SchedulerCalls(calls[1..]) + if calls[0].attempt.Some? then 1 else 0
  }

  function AttemptsCalled(calls: seq<ChainCall>): set<nat> {
    set j | 0 <= j < |calls| && calls[j].attempt.Some? :: calls[j].attempt.value
  }

  lemma AttemptsCalledCons(calls: seq<ChainCall>)
    requires calls != []
    ensures AttemptsCalled(calls)
            == (if calls[0].attempt.Some? then {calls[0].attempt.value} else {}) + AttemptsCalled(calls[1..])
  {
    var rest := calls[1..];
    var here := if calls[0].attempt.Some? then {calls[0].attempt.value} else {};
    forall a | a in AttemptsCalled(rest) ensures a in AttemptsCalled(calls) {
      var j :| 0 <= j < |rest| && rest[j].attempt.Some? && rest[j].attempt.value == a;
      assert calls[j + 1].attempt.value == a;
    }
    forall a | a in AttemptsCalled(calls) ensures a in here + AttemptsCalled(rest) {
      var j :| 0 <= j < |calls| && calls[j].attempt.Some? && calls[j].attempt.value == a;
      if j > 0 {
        assert rest[j - 1].attempt.value == a;
      }
    }
  }

  lemma FirstAttemptIsNew(calls: seq<ChainCall>, n: nat)
    requires calls != [] && CallsTracked(calls, n)
    ensures CallsTracked(calls[1..], n)
    ensures calls[0].attempt.Some? ==> calls[0].attempt.value !in AttemptsCalled(calls[1..])
  {
    assert forall j :: 0 <= j < |calls| - 1 ==> calls[1..][j] == calls[j + 1];
  }

  lemma {:induction false} CallsCountAttempts(calls: seq<ChainCall>, n: nat)
    requires CallsTracked(calls, n)
    ensures |AttemptsCalled(calls)| == SchedulerCalls(calls)
  {
    if calls != [] {
      FirstAttemptIsNew(calls, n);
      AttemptsCalledCons(calls);
      CallsCountAttempts(calls[1..], n);
    }
  }

  lemma {:induction false} BelowCardinality(xs: set<nat>, n: nat)
    requires forall x :: x in xs ==> x < n
    ensures |xs| <= n
  {
    if n > 0 {
      BelowCardinality(xs - {n - 1}, n - 1);
      if n - 1 in xs {
        assert |xs - {n - 1}| == |xs| - 1;
      } else {
        assert xs - {n - 1} == xs;
      }
    } else {
      assert xs == {};
    }
  }

  /**
   In every run there are never more than five attempt rows, the scheduler instances
   together make at most that many chain calls, and the persisted counter counts the
   rows; only a SETTLED row can have a smaller counter.
   */
  lemma AttemptBudget(s0: Sys, steps: seq<Step>, m: MarketId)
    requires Initial(s0) && m in Run(s0, steps).markets
    ensures
      var k := Run(s0, steps).markets[m];
      && SchedulerCalls(k.calls) <= |k.attempts| <= MAX_RETRY_ATTEMPTS && k.attemptCount <= |k.attempts|
      && (k.state != Settled ==> k.attemptCount == |k.attempts|)
  {
    InitialHasInv(s0);
    RunKeepsInv(s0, steps);
    var k := Run(s0, steps).markets[m];
    assert RowInv(k);
    CallsCountAttempts(k.calls, |k.attempts|);
    BelowCardinality(AttemptsCalled(k.calls), |k.attempts|);
  }

  /** `step` saves an adjudication of `m`. */
  predicate Saves(s: Sys, step: Step, m: MarketId) {
    step.SaveAdjudication? && IsOpen(s, step.r, Succeeded) && s.requests[step.r].market == m
  }

  predicate Counted(k: Market) {
    k.attemptCount == |k.attempts|
  }

  /**
   The exact condition for the counter: a save leaves it equal to the number of attempt
   rows if and only if no attempt was claimed since the row was read; no other step
   makes or breaks the equality.
   */
  lemma CounterExactIff(s: Sys, step: Step, m: MarketId)
    requires Inv(s) && m in s.markets
    ensures
      m in Next(s, step).markets
      && (Counted(Next(s, step).markets[m]) <==>
          if Saves(s, step, m) then s.requests[step.r].counter == |s.markets[m].attempts| else Counted(s.markets[m]))
  {
    assert RowInv(s.markets[m]);
    if IsSchedulerStep(step) {
      SchedulerKeepsCounted(s, step, m);
    } else if step.SaveAdjudication? {
      SaveCounts(s, step.r, m);
    } else {
      UserKeepsCounted(s, step, m);
    }
  }

  lemma SaveCounts(s: Sys, r: RequestId, m: MarketId)
    requires m in s.markets
    ensures
      var step := SaveAdjudication(r);
      m in Next(s, step).markets
      && (Counted(Next(s, step).markets[m]) <==>
          if Saves(s, step, m) then s.requests[r].counter == |s.markets[m].attempts| else Counted(s.markets[m]))
  {
  }

  lemma UserKeepsCounted(s: Sys, step: Step, m: MarketId)
    requires m in s.markets && !IsSchedulerStep(step) && !step.SaveAdjudication?
    ensures m in Next(s, step).markets && (Counted(Next(s, step).markets[m]) <==> Counted(s.markets[m]))
  {
  }

  lemma SchedulerKeepsCounted(s: Sys, step: Step, m: MarketId)
    requires m in s.markets && IsSchedulerStep(step)
    ensures m in Next(s, step).markets && (Counted(Next(s, step).markets[m]) <==> Counted(s.markets[m]))
  {
    if step.WriteBack? && Next(s, step) != s {
      var task := s.tasks[step.t];
      StatusKeepsCounted(s.markets[task.market], task.attempt, Failed);
      StatusKeepsCounted(s.markets[task.market], task.attempt, Resolved);
    }
  }

  lemma StatusKeepsCounted(k: Market, attempt: nat, status: AttemptStatus)
    ensures |WithStatus(k, attempt, status).attempts| == |k.attempts|
  {
  }

  predicate SavesAreCurrent(s: Sys, steps: seq<Step>, m: MarketId)
    decreases |steps|
  {
    steps == []
    || ((Saves(s, steps[0], m) && m in s.markets ==> s.requests[steps[0].r].counter == |s.markets[m].attempts|)
        && SavesAreCurrent(Next(s, steps[0]), steps[1..], m))
  }

  /** Without a claim between the reading and the saving of an adjudication the counter is always exact. */
  lemma {:induction false} CounterIsExact(s: Sys, steps: seq<Step>, m: MarketId)
    requires Inv(s) && m in s.markets && Counted(s.markets[m]) && SavesAreCurrent(s, steps, m)
    ensures m in Run(s, steps).markets && Counted(Run(s, steps).markets[m])
    decreases |steps|
  {
    if steps != [] {
      CounterExactIff(s, steps[0], m);
      NextKeepsInv(s, steps[0]);
      CounterIsExact(Next(s, steps[0]), steps[1..], m);
    }
  }

  // ------------------------------------------------------------------- grace

  /** Once a resolution is proposed, its time and grace period never change. */
  lemma {:induction false} DeadlineIsFixed(s: Sys, steps: seq<Step>, m: MarketId)
    requires m in s.markets && s.markets[m].proposedAt.Some? && s.markets[m].state != Pending
    ensures
      var k := Run(s, steps);
      m in k.markets && k.markets[m].proposedAt.Some? && Deadline(k.markets[m]) == Deadline(s.markets[m])
    decreases |steps|
  {
    if steps != [] {
      NextGoesOnward(s, steps[0], m);
      DeadlineIsFixed(Next(s, steps[0]), steps[1..], m);
    }
  }

  /** The scheduler claimed `m` or called the chain for it. */
  predicate SchedulerActed(k: Market, k': Market) {
    |k'.attempts| > |k.attempts| || SchedulerCalls(k'.calls) > SchedulerCalls(k.calls)
  }

  lemma {:induction false} CallsAppend(calls: seq<ChainCall>, c: ChainCall)
    ensures SchedulerCalls(calls + [c]) == SchedulerCalls(calls) + if c.attempt.Some? then 1 else 0
  {
    if calls != [] {
      CallsAppend(calls[1..], c);
      assert (calls + [c])[1..] == calls[1..] + [c];
    } else {
      assert ([c])[1..] == [];
    }
  }

  /** Only claiming and calling count as acting. */
  lemma OthersDoNotAct(s: Sys, step: Step, m: MarketId)
    requires m in s.markets && !step.ClaimMarket? && !step.CallChain?
    ensures m in Next(s, step).markets && !SchedulerActed(s.markets[m], Next(s, step).markets[m])
  {
    if step.CallForAdjudication? && IsOpen(s, step.r, Calling) {
      CallsAppend(s.markets[m].calls, ChainCall(None, s.requests[step.r].outcome, step.chainOk, s.now));
    } else if step.WriteBack? && Next(s, step) != s {
      var task := s.tasks[step.t];
      var k := s.markets[task.market];
      assert |WithStatus(k, task.attempt, Failed).attempts| == |k.attempts|;
      assert |Finalized(k, task.attempt, task.outcome, s.now).attempts| == |k.attempts|;
    }
  }

  lemma ClaimWaits(s: Sys, i: InstanceId, item: WorkItem, t: TaskId, gotLock: bool, m: MarketId)
    requires Inv(s) && m in s.markets && item in InstanceOf(s, i).work
    requires NextClaim(s, i, item, t, gotLock).markets[m] != s.markets[m]
    ensures Ripe(s, m)
  {
    assert MemoryInv(s, i);
  }

  lemma CallWaits(s: Sys, t: TaskId, chainOk: bool, m: MarketId)
    requires Inv(s) && m in s.markets && t in s.tasks && s.tasks[t].market in s.markets
    requires NextCall(s, t, chainOk).markets[m] != s.markets[m]
    ensures Ripe(s, m)
  {
    assert TaskInv(s, t);
  }

  /**
   After any run, a step by which the scheduler claims a market or calls the chain for
   it happens only when the grace period of its proposal is over: neither stale lists,
   nor the retry queue, nor crash recovery, nor a manual retry gets round it.
   */
  lemma NoActionInGracePeriod(s0: Sys, steps: seq<Step>, step: Step, m: MarketId)
    requires Initial(s0) && m in Run(s0, steps).markets
    requires
      var s := Run(s0, steps);
      m in Next(s, step).markets && SchedulerActed(s.markets[m], Next(s, step).markets[m])
    ensures
      var s := Run(s0, steps);
      s.markets[m].proposedAt.Some? && Deadline(s.markets[m]) <= s.now
  {
    InitialHasInv(s0);
    RunKeepsInv(s0, steps);
    var s := Run(s0, steps);
    match step
    case ClaimMarket(i, item, t, gotLock) => ClaimWaits(s, i, item, t, gotLock, m);
    case CallChain(t, chainOk) => CallWaits(s, t, chainOk, m);
    case _ => OthersDoNotAct(s, step, m);
  }

  // ------------------------------------------------------------------ freeze

  predicate NoTasks(s: Sys, m: MarketId) {
    forall t :: t in s.tasks ==> s.tasks[t].market != m
  }

  lemma NoTasksBeforeClaim(s: Sys, m: MarketId)
    requires Inv(s) && m in s.markets && s.markets[m].state in {Pending, Proposed, Challenged}
    ensures NoTasks(s, m)
  {
    assert RowInv(s.markets[m]);
    forall t | t in s.tasks ensures s.tasks[t].market != m {
      assert TaskInv(s, t);
    }
  }

  /** `step` starts, calls the chain for or saves an adjudication of `m`. */
  predicate Adjudicates(s: Sys, step: Step, m: MarketId) {
    match step
    case BeginAdjudication(_, n, _, _) => n == m
    case CallForAdjudication(r, _) => r in s.requests && s.requests[r].market == m
    case SaveAdjudication(r) => r in s.requests && s.requests[r].market == m
    case _ => false
  }

  /** No step of the run adjudicates `m`. */
  predicate Quiet(s: Sys, steps: seq<Step>, m: MarketId)
    decreases |steps|
  {
    steps == [] || (!Adjudicates(s, steps[0], m) && Quiet(Next(s, steps[0]), steps[1..], m))
  }

  lemma FrozenStep(s: Sys, step: Step, m: MarketId)
    requires NoTasks(s, m) && m in s.markets && s.markets[m].state == Challenged && !Adjudicates(s, step, m)
    ensures m in Next(s, step).markets && Next(s, step).markets[m] == s.markets[m]
  {
    if IsSchedulerStep(step) {
      FrozenForScheduler(s, step, m);
    }
  }

  lemma FrozenForScheduler(s: Sys, step: Step, m: MarketId)
    requires NoTasks(s, m) && m in s.markets && s.markets[m].state == Challenged && IsSchedulerStep(step)
    ensures m in Next(s, step).markets && Next(s, step).markets[m] == s.markets[m]
  {
  }

  /**
   A challenged market stays exactly as it is, and the chain is not called for it,
   through every run in which it is not adjudicated.
   */
  lemma {:induction false} ChallengeFreezes(s0: Sys, before: seq<Step>, after: seq<Step>, m: MarketId)
    requires Initial(s0) && m in Run(s0, before).markets && Run(s0, before).markets[m].state == Challenged
    requires Quiet(Run(s0, before), after, m)
    ensures
      var s := Run(s0, before);
      m in Run(s, after).markets && Run(s, after).markets[m] == s.markets[m]
  {
    InitialHasInv(s0);
    RunKeepsInv(s0, before);
    FrozenRun(Run(s0, before), after, m);
  }

  lemma {:induction false} FrozenRun(s: Sys, steps: seq<Step>, m: MarketId)
    requires Inv(s) && m in s.markets && s.markets[m].state == Challenged && Quiet(s, steps, m)
    ensures m in Run(s, steps).markets && Run(s, steps).markets[m] == s.markets[m]
    decreases |steps|
  {
    if steps != [] {
      NoTasksBeforeClaim(s, m);
      FrozenStep(s, steps[0], m);
      NextKeepsInv(s, steps[0]);
      FrozenRun(Next(s, steps[0]), steps[1..], m);
    }
  }
}
