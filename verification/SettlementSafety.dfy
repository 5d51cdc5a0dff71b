/**
 What every run of the settlement system keeps: the attempt budget, the grace
 period, the freeze of challenged markets, and the permanence of SETTLED.
 */
module SettlementSafety {
  import opened Text
  import opened SettlementState
  import opened Settlement

  // --------------------------------------------------------------- invariant

  predicate CallsTracked(calls: seq<ChainCall>, attempts: nat) {
    && (forall j :: 0 <= j < |calls| && calls[j].attempt.Some? ==> calls[j].attempt.value < attempts)
    && (forall i, j :: 0 <= i < j < |calls| && calls[i].attempt.Some? ==> calls[i].attempt != calls[j].attempt)
  }

  predicate NotBefore(k: Market, time: int) {
    && (forall j :: 0 <= j < |k.attempts| ==> time <= k.attempts[j].claimedAt)
    && (forall j :: 0 <= j < |k.calls| && k.calls[j].attempt.Some? ==> time <= k.calls[j].at)
  }

  predicate AllPropose(attempts: seq<Attempt>, outcome: string) {
    forall j :: 0 <= j < |attempts| ==> attempts[j].outcome == outcome
  }

  /** What holds of every market row. */
  predicate RowInv(k: Market) {
    && k.attemptCount <= |k.attempts| <= MAX_RETRY_ATTEMPTS
    && (k.state != Settled ==> k.attemptCount == |k.attempts|)
    && CallsTracked(k.calls, |k.attempts|)
    && (k.state == Pending ==> IsFresh(k))
    && (k.state != Pending ==> k.proposed.Some? && k.proposed.value in k.options && k.proposedAt.Some?)
    && (k.state == Proposed || k.state == Challenged ==> k.attempts == [])
    && (k.state == Proposed ==> k.calls == [])
    && (k.state == Settling ==> k.proposed.value != "" && AllPropose(k.attempts, k.proposed.value))
    && (k.proposedAt.Some? ==> NotBefore(k, Deadline(k)))
    && (k.resolvedOutcome.Some? <==> k.state == Settled)
    && (k.resolvedOutcome.Some? ==> k.resolvedOutcome.value in k.options)
    && (forall j :: 0 <= j < |k.calls| ==> k.calls[j].outcome in k.options)
    && (forall j :: 0 <= j < |k.attempts| ==> k.attempts[j].outcome in k.options)
  }

  /** The grace period of `m` is over. */
  predicate Ripe(s: Sys, m: MarketId) {
    m in s.markets && s.markets[m].proposedAt.Some? && Deadline(s.markets[m]) <= s.now
  }

  predicate TaskInv(s: Sys, t: TaskId)
    requires t in s.tasks
  {
    var task := s.tasks[t];
    && Ripe(s, task.market)
    && task.attempt < |s.markets[task.market].attempts|
    && s.markets[task.market].attempts[task.attempt].outcome == task.outcome
    && s.markets[task.market].attempts[task.attempt].status == Resolving
    && (task.phase == Calling ==> Uncalled(s.markets[task.market], task.attempt))
  }

  predicate Uncalled(k: Market, attempt: nat) {
    forall j :: 0 <= j < |k.calls| ==> k.calls[j].attempt != Some(attempt)
  }

  predicate TasksDistinct(s: Sys) {
    forall t, u :: t in s.tasks && u in s.tasks && t != u && s.tasks[t].market == s.tasks[u].market
      ==> s.tasks[t].attempt != s.tasks[u].attempt
  }

  predicate MemoryInv(s: Sys, i: InstanceId)
    requires i in s.instances
  {
    && (forall item :: item in s.instances[i].work ==> Ripe(s, item.market))
    && (forall m :: m in s.instances[i].queue ==> Ripe(s, m))
  }

  /** Rows, settlements in progress and memory. */
  predicate CoreInv(s: Sys) {
    && (forall m :: m in s.markets ==> RowInv(s.markets[m]))
    && (forall t :: t in s.tasks ==> TaskInv(s, t))
    && TasksDistinct(s)
    && (forall i :: i in s.instances ==> MemoryInv(s, i))
  }

  predicate RequestInv(s: Sys, r: RequestId)
    requires r in s.requests
  {
    var q := s.requests[r];
    && q.market in s.markets && s.markets[q.market].state in {Settling, Challenged, Settled}
    && q.outcome in s.markets[q.market].options && q.counter <= |s.markets[q.market].attempts|
  }

  predicate RequestsInv(s: Sys) {
    forall r :: r in s.requests ==> RequestInv(s, r)
  }

  predicate Inv(s: Sys) {
    CoreInv(s) && RequestsInv(s)
  }

  // ---------------------------------------------------------- how rows can move

  /** What every step keeps of a row, and in which direction its state goes. */
  predicate Onward(k: Market, k': Market) {
    && k'.options == k.options && k'.endTime == k.endTime && k'.cancelled == k.cancelled
    && |k.attempts| <= |k'.attempts| && |k.calls| <= |k'.calls|
    && (k.state == Settled ==> k'.state == Settled)
    && (k.state == Challenged ==> k'.state in {Challenged, Settled})
    && (k.state == Settling ==> k'.state in {Settling, Settled})
    && (k.state != Pending ==>
          k'.state != Pending && k'.proposedAt == k.proposedAt && k'.graceSeconds == k.graceSeconds)
  }

  lemma RequestsGoOnward(k: Market, outcome: string, grace: Option<nat>, authorized: bool, at: int)
    ensures
      var r := Propose(k, outcome, grace, authorized, at);
      r.Ok? ==> Onward(k, r.value)
    ensures Challenge(k, at).Ok? ==> Onward(k, Challenge(k, at).value)
  {
  }

  lemma AdjudicationsGoOnward(k: Market, outcome: string, chainOk: bool, counter: nat, now: int)
    ensures Onward(k, AdminCalled(k, outcome, chainOk, now)) && Onward(k, Saved(k, outcome, counter, now))
  {
  }

  lemma UserGoesOnward(s: Sys, step: Step, m: MarketId)
    requires m in s.markets && !IsSchedulerStep(step)
    ensures m in Next(s, step).markets && Onward(s.markets[m], Next(s, step).markets[m])
  {
    if IsAdminStep(step) {
      AdminGoesOnward(s, step, m);
    } else if step.ProposeResolution? {
      RequestsGoOnward(s.markets[m], step.outcome, step.grace, step.authorized, step.readAt);
    } else if step.ChallengeResolution? {
      RequestsGoOnward(s.markets[m], "", None, false, step.readAt);
    }
  }

  lemma AdminGoesOnward(s: Sys, step: Step, m: MarketId)
    requires m in s.markets && IsAdminStep(step)
    ensures m in Next(s, step).markets && Onward(s.markets[m], Next(s, step).markets[m])
  {
    if step.CallForAdjudication? && step.r in s.requests {
      AdjudicationsGoOnward(s.markets[m], s.requests[step.r].outcome, step.chainOk, 0, s.now);
    } else if step.SaveAdjudication? && step.r in s.requests {
      AdjudicationsGoOnward(s.markets[m], s.requests[step.r].outcome, false, s.requests[step.r].counter, s.now);
    }
  }

  /** Of the scheduler's steps only three write rows. */
  predicate WritesRows(step: Step) {
    step.ClaimMarket? || step.CallChain? || step.WriteBack?
  }

  lemma OthersKeepRows(s: Sys, step: Step)
    requires IsSchedulerStep(step) && !WritesRows(step)
    ensures Next(s, step).markets == s.markets
  {
  }

  lemma WriterGoesOnward(s: Sys, step: Step, m: MarketId)
    requires m in s.markets && WritesRows(step)
    ensures m in Next(s, step).markets && Onward(s.markets[m], Next(s, step).markets[m])
  {
    if step.WriteBack? && Next(s, step) != s {
      WriteBackGoesOnward(s, step.t, m);
    }
  }

  lemma StatusGoesOnward(k: Market, attempt: nat, status: AttemptStatus)
    ensures Onward(k, WithStatus(k, attempt, status))
  {
  }

  lemma FinalizedGoesOnward(k: Market, attempt: nat, outcome: string, now: int)
    ensures Onward(k, Finalized(k, attempt, outcome, now))
  {
  }

  lemma WriteBackGoesOnward(s: Sys, t: TaskId, m: MarketId)
    requires m in s.markets && t in s.tasks && s.tasks[t].market in s.markets
    ensures Onward(s.markets[m], NextWriteBack(s, t).markets[m])
  {
    var task := s.tasks[t];
    StatusGoesOnward(s.markets[task.market], task.attempt, Failed);
    FinalizedGoesOnward(s.markets[task.market], task.attempt, task.outcome, s.now);
  }

  lemma NextGoesOnward(s: Sys, step: Step, m: MarketId)
    requires m in s.markets
    ensures m in Next(s, step).markets && Onward(s.markets[m], Next(s, step).markets[m])
  {
    if !IsSchedulerStep(step) {
      UserGoesOnward(s, step, m);
    } else if WritesRows(step) {
      WriterGoesOnward(s, step, m);
    } else {
      OthersKeepRows(s, step);
    }
  }

  lemma NextKeepsMarkets(s: Sys, step: Step)
    ensures Next(s, step).markets.Keys == s.markets.Keys
  {
  }

  // ------------------------------------------------------------ preservation

  /** `s'` only moved `m` to a row that keeps its attempts' outcomes and its deadline. */
  predicate RowStep(s: Sys, s': Sys, m: MarketId) {
    && m in s.markets && s'.markets.Keys == s.markets.Keys
    && (forall n :: n in s.markets && n != m ==> s'.markets[n] == s.markets[n])
    && s'.now == s.now
    && (s.markets[m].proposedAt.Some? ==>
          s'.markets[m].proposedAt == s.markets[m].proposedAt
          && s'.markets[m].graceSeconds == s.markets[m].graceSeconds)
  }

  lemma MemoryStays(s: Sys, s': Sys, m: MarketId)
    requires RowStep(s, s', m) && (forall i :: i in s.instances ==> MemoryInv(s, i))
    requires s'.instances == s.instances
    ensures forall i :: i in s'.instances ==> MemoryInv(s', i)
  {
    forall i | i in s'.instances ensures MemoryInv(s', i) {
      assert MemoryInv(s, i);
    }
  }

  /** From `k` to `k'` the attempts and the scheduler's calls are the same, and a set deadline stays. */
  predicate UserMove(k: Market, k': Market) {
    && k'.attempts == k.attempts
    && (forall j :: 0 <= j < |k'.calls| && k'.calls[j].attempt.Some? ==> j < |k.calls| && k.calls[j] == k'.calls[j])
    && (k.proposedAt.Some? ==> k'.proposedAt == k.proposedAt && k'.graceSeconds == k.graceSeconds)
  }

  lemma UserMoveKeepsUncalled(k: Market, k': Market, attempt: nat)
    requires UserMove(k, k') && Uncalled(k, attempt)
    ensures Uncalled(k', attempt)
  {
  }

  lemma UserMoveKeepsTask(s: Sys, m: MarketId, k: Market, t: TaskId)
    requires m in s.markets && UserMove(s.markets[m], k) && t in s.tasks && TaskInv(s, t)
    ensures TaskInv(s.(markets := s.markets[m := k]), t)
  {
    if s.tasks[t].phase == Calling && s.tasks[t].market == m {
      UserMoveKeepsUncalled(s.markets[m], k, s.tasks[t].attempt);
    }
  }

  lemma UserMoveKeepsTasks(s: Sys, m: MarketId, k: Market)
    requires m in s.markets && UserMove(s.markets[m], k)
    requires (forall t :: t in s.tasks ==> TaskInv(s, t)) && TasksDistinct(s)
    ensures
      var s' := s.(markets := s.markets[m := k]);
      (forall t :: t in s'.tasks ==> TaskInv(s', t)) && TasksDistinct(s')
  {
    var s' := s.(markets := s.markets[m := k]);
    forall t | t in s'.tasks ensures TaskInv(s', t) {
      UserMoveKeepsTask(s, m, k, t);
    }
  }

  lemma UserStepKeepsInv(s: Sys, m: MarketId, k: Market)
    requires CoreInv(s) && m in s.markets && RowInv(k) && UserMove(s.markets[m], k)
    ensures CoreInv(s.(markets := s.markets[m := k]))
  {
    MemoryStays(s, s.(markets := s.markets[m := k]), m);
    UserMoveKeepsTasks(s, m, k);
  }

  lemma TasksIgnoreMemory(s: Sys, instances: map<InstanceId, Instance>)
    requires forall t :: t in s.tasks ==> TaskInv(s, t)
    ensures forall t :: t in s.tasks ==> TaskInv(s.(instances := instances), t)
  {
    forall t | t in s.tasks ensures TaskInv(s.(instances := instances), t) {
      assert TaskInv(s, t);
    }
  }

  /** An instance may hold any markets whose grace period is over. */
  lemma InstanceReplaced(s: Sys, i: InstanceId, inst: Instance)
    requires CoreInv(s)
    requires (forall item :: item in inst.work ==> Ripe(s, item.market)) && (forall m :: m in inst.queue ==> Ripe(s, m))
    ensures CoreInv(s.(instances := s.instances[i := inst]))
  {
    var s' := s.(instances := s.instances[i := inst]);
    TasksIgnoreMemory(s, s'.instances);
    forall j | j in s'.instances ensures MemoryInv(s', j) {
      if j != i {
        assert MemoryInv(s, j);
      }
    }
  }

  lemma MemoryIsRipe(s: Sys, i: InstanceId)
    requires CoreInv(s)
    ensures forall item :: item in InstanceOf(s, i).work ==> Ripe(s, item.market)
    ensures forall m :: m in InstanceOf(s, i).queue ==> Ripe(s, m)
  {
    if i in s.instances {
      assert MemoryInv(s, i);
    }
  }

  lemma AddWorkKeepsInv(s: Sys, i: InstanceId, items: multiset<WorkItem>)
    requires CoreInv(s) && forall item :: item in items ==> Ripe(s, item.market)
    ensures CoreInv(AddWork(s, i, items))
  {
    MemoryIsRipe(s, i);
    InstanceReplaced(s, i, InstanceOf(s, i).(work := InstanceOf(s, i).work + items));
  }

  lemma WithQueueKeepsInv(s: Sys, i: InstanceId, queue: map<MarketId, RetryInfo>)
    requires CoreInv(s) && forall m :: m in queue ==> Ripe(s, m)
    ensures CoreInv(WithQueue(s, i, queue))
  {
    MemoryIsRipe(s, i);
    InstanceReplaced(s, i, InstanceOf(s, i).(queue := queue));
  }

  lemma ReadKeepsInv(s: Sys, i: InstanceId, picked: set<MarketId>, viaRetry: bool)
    requires CoreInv(s) && forall m :: m in picked ==> Ripe(s, m)
    ensures CoreInv(AddWork(s, i, Items(picked, viaRetry)))
  {
    AddWorkKeepsInv(s, i, Items(picked, viaRetry));
  }

  lemma StaleIsRipe(s: Sys, m: MarketId)
    requires CoreInv(s) && m in s.markets && IsStale(s.markets[m], s.now)
    ensures Ripe(s, m)
  {
    var k := s.markets[m];
    assert RowInv(k);
    assert Deadline(k) <= k.attempts[|k.attempts| - 1].claimedAt;
  }

  lemma ClaimKeepsRow(k: Market, now: int)
    requires RowInv(k) && Claimable(k) && k.proposedAt.Some? && Deadline(k) <= now
    ensures RowInv(Claimed(k, now))
  {
    var k' := Claimed(k, now);
    assert Deadline(k') == Deadline(k);
  }

  lemma TakeKeepsInv(s: Sys, i: InstanceId, item: WorkItem)
    requires CoreInv(s) && item in InstanceOf(s, i).work
    ensures
      var left := InstanceOf(s, i).work - multiset{item};
      CoreInv(s.(instances := s.instances[i := InstanceOf(s, i).(work := left)]))
  {
    MemoryIsRipe(s, i);
    InstanceReplaced(s, i, InstanceOf(s, i).(work := InstanceOf(s, i).work - multiset{item}));
  }

  /** The effect of a successful claim on rows and tasks. */
  function Begun(s: Sys, i: InstanceId, m: MarketId, t: TaskId, viaRetry: bool): Sys
    requires m in s.markets && Claimable(s.markets[m])
  {
    var k := s.markets[m];
    s.(markets := s.markets[m := Claimed(k, s.now)],
       tasks := s.tasks[t := Task(i, m, |k.attempts|, k.proposed.value, viaRetry, Calling)])
  }

  lemma BegunKeepsTask(s: Sys, i: InstanceId, m: MarketId, t: TaskId, viaRetry: bool, u: TaskId)
    requires m in s.markets && Claimable(s.markets[m]) && u in s.tasks && u != t && TaskInv(s, u)
    ensures TaskInv(Begun(s, i, m, t, viaRetry), u)
  {
  }

  lemma BegunTask(s: Sys, i: InstanceId, m: MarketId, t: TaskId, viaRetry: bool)
    requires Ripe(s, m) && Claimable(s.markets[m]) && RowInv(s.markets[m])
    ensures TaskInv(Begun(s, i, m, t, viaRetry), t)
  {
    var k := s.markets[m];
    assert Uncalled(k, |k.attempts|);
    assert Uncalled(Claimed(k, s.now), |k.attempts|);
  }

  lemma BegunKeepsTasks(s: Sys, i: InstanceId, m: MarketId, t: TaskId, viaRetry: bool)
    requires Ripe(s, m) && Claimable(s.markets[m]) && RowInv(s.markets[m])
    requires forall u :: u in s.tasks ==> TaskInv(s, u)
    ensures
      var s' := Begun(s, i, m, t, viaRetry);
      forall u :: u in s'.tasks ==> TaskInv(s', u)
  {
    var s' := Begun(s, i, m, t, viaRetry);
    forall u | u in s'.tasks ensures TaskInv(s', u) {
      if u == t {
        BegunTask(s, i, m, t, viaRetry);
      } else {
        BegunKeepsTask(s, i, m, t, viaRetry, u);
      }
    }
  }

  lemma BegunIsDistinct(s: Sys, i: InstanceId, m: MarketId, t: TaskId, viaRetry: bool)
    requires m in s.markets && Claimable(s.markets[m]) && t !in s.tasks && TasksDistinct(s)
    requires forall u :: u in s.tasks && s.tasks[u].market == m ==> s.tasks[u].attempt < |s.markets[m].attempts|
    ensures TasksDistinct(Begun(s, i, m, t, viaRetry))
  {
  }

  lemma StartKeepsInv(s: Sys, i: InstanceId, m: MarketId, t: TaskId, viaRetry: bool)
    requires CoreInv(s) && Ripe(s, m) && Claimable(s.markets[m]) && t !in s.tasks
    ensures CoreInv(Begun(s, i, m, t, viaRetry))
  {
    assert RowInv(s.markets[m]);
    ClaimKeepsRow(s.markets[m], s.now);
    MemoryStays(s, Begun(s, i, m, t, viaRetry), m);
    BegunKeepsTasks(s, i, m, t, viaRetry);
    forall u | u in s.tasks && s.tasks[u].market == m ensures s.tasks[u].attempt < |s.markets[m].attempts| {
      assert TaskInv(s, u);
    }
    BegunIsDistinct(s, i, m, t, viaRetry);
  }

  lemma ClaimKeepsInv(s: Sys, i: InstanceId, item: WorkItem, t: TaskId, gotLock: bool)
    requires CoreInv(s) && item in InstanceOf(s, i).work && t !in s.tasks
    ensures CoreInv(NextClaim(s, i, item, t, gotLock))
  {
    var m := item.market;
    var inst := InstanceOf(s, i);
    var taken := s.(instances := s.instances[i := inst.(work := inst.work - multiset{item})]);
    TakeKeepsInv(s, i, item);
    assert Ripe(s, m) by {
      assert MemoryInv(s, i);
    }
    if gotLock && m in s.markets && Claimable(s.markets[m]) {
      StartKeepsInv(taken, i, m, t, item.viaRetry);
    } else if item.viaRetry {
      assert MemoryInv(s, i);
      WithQueueKeepsInv(taken, i, Bumped(inst.queue, m, s.now));
    }
  }

  lemma CallKeepsRow(k: Market, attempt: nat, outcome: string, chainOk: bool, now: int)
    requires RowInv(k) && Uncalled(k, attempt) && attempt < |k.attempts| && k.attempts[attempt].outcome == outcome
    requires k.proposedAt.Some? && Deadline(k) <= now
    ensures RowInv(WithCall(k, attempt, outcome, chainOk, now))
  {
    assert outcome in k.options;
    assert Deadline(WithCall(k, attempt, outcome, chainOk, now)) == Deadline(k);
  }

  /** The row `k'` carries on the attempts and the deadline of `k`. */
  predicate Continues(k: Market, k': Market) {
    && k'.proposedAt == k.proposedAt && k'.graceSeconds == k.graceSeconds
    && |k'.attempts| == |k.attempts|
    && forall j :: 0 <= j < |k.attempts| ==> k'.attempts[j].outcome == k.attempts[j].outcome
  }

  predicate SameStatus(k: Market, k': Market, attempt: nat) {
    attempt < |k.attempts| && attempt < |k'.attempts| ==> k'.attempts[attempt].status == k.attempts[attempt].status
  }

  lemma TaskStays(s: Sys, s': Sys, t: TaskId, u: TaskId)
    requires t in s.tasks && TaskInv(s, t) && s'.now == s.now
    requires u in s'.tasks && s'.tasks[u].(phase := s.tasks[t].phase) == s.tasks[t]
    requires
      var m := s.tasks[t].market;
      && m in s.markets && m in s'.markets && Continues(s.markets[m], s'.markets[m])
      && SameStatus(s.markets[m], s'.markets[m], s.tasks[t].attempt)
      && (s'.tasks[u].phase == Calling ==> Uncalled(s'.markets[m], s.tasks[t].attempt))
    ensures TaskInv(s', u)
  {
  }

  /** `s'` replaces the row of `m`; its tasks are some of those of `s`, maybe in a later phase. */
  predicate RowChange(s: Sys, s': Sys, m: MarketId) {
    && m in s.markets && m in s'.markets && Continues(s.markets[m], s'.markets[m])
    && s' == s.(markets := s.markets[m := s'.markets[m]], tasks := s'.tasks)
    && (forall u :: u in s'.tasks ==> u in s.tasks && s'.tasks[u].(phase := s.tasks[u].phase) == s.tasks[u])
    && (forall u :: u in s'.tasks && s'.tasks[u].market == m ==>
          SameStatus(s.markets[m], s'.markets[m], s'.tasks[u].attempt))
    && (forall u :: u in s'.tasks && s'.tasks[u].phase == Calling ==>
          s.tasks[u].phase == Calling &&
          (s'.tasks[u].market == m ==> Uncalled(s'.markets[m], s'.tasks[u].attempt)))
  }

  lemma RowChangeKeepsTasks(s: Sys, s': Sys, m: MarketId)
    requires RowChange(s, s', m) && (forall t :: t in s.tasks ==> TaskInv(s, t)) && TasksDistinct(s)
    ensures (forall t :: t in s'.tasks ==> TaskInv(s', t)) && TasksDistinct(s')
  {
    forall u | u in s'.tasks ensures TaskInv(s', u) {
      assert TaskInv(s, u);
      TaskStays(s, s', u, u);
    }
    forall t, u | t in s'.tasks && u in s'.tasks && t != u && s'.tasks[t].market == s'.tasks[u].market
      ensures s'.tasks[t].attempt != s'.tasks[u].attempt
    {
      assert s.tasks[t].attempt != s.tasks[u].attempt;
    }
  }

  lemma RowChangeKeepsInv(s: Sys, s': Sys, m: MarketId)
    requires CoreInv(s) && RowChange(s, s', m) && RowInv(s'.markets[m])
    ensures CoreInv(s')
  {
    assert RowStep(s, s', m);
    MemoryStays(s, s', m);
    RowChangeKeepsTasks(s, s', m);
  }

  lemma CallIsRowChange(s: Sys, t: TaskId, chainOk: bool)
    requires t in s.tasks && s.tasks[t].phase == Calling && s.tasks[t].market in s.markets
    requires (forall u :: u in s.tasks ==> TaskInv(s, u)) && TasksDistinct(s)
    ensures RowChange(s, NextCall(s, t, chainOk), s.tasks[t].market)
  {
    var m := s.tasks[t].market;
    var s' := NextCall(s, t, chainOk);
    forall u | u in s'.tasks && s'.tasks[u].phase == Calling && s'.tasks[u].market == m
      ensures Uncalled(s'.markets[m], s'.tasks[u].attempt)
    {
      assert u != t && TaskInv(s, u) && s.tasks[u].attempt != s.tasks[t].attempt;
    }
  }

  lemma CallKeepsInv(s: Sys, t: TaskId, chainOk: bool)
    requires CoreInv(s) && t in s.tasks && s.tasks[t].phase == Calling && s.tasks[t].market in s.markets
    ensures CoreInv(NextCall(s, t, chainOk))
  {
    var task := s.tasks[t];
    assert TaskInv(s, t) && RowInv(s.markets[task.market]);
    CallKeepsRow(s.markets[task.market], task.attempt, task.outcome, chainOk, s.now);
    CallIsRowChange(s, t, chainOk);
    RowChangeKeepsInv(s, NextCall(s, t, chainOk), task.market);
  }

  lemma FinalizeKeepsRow(k: Market, attempt: nat, outcome: string, now: int)
    requires RowInv(k) && attempt < |k.attempts| && k.attempts[attempt].outcome == outcome
    ensures RowInv(Finalized(k, attempt, outcome, now))
  {
    assert outcome in k.options;
    assert k.state != Pending;
    assert Deadline(Finalized(k, attempt, outcome, now)) == Deadline(k);
  }

  lemma StatusKeepsRow(k: Market, attempt: nat, status: AttemptStatus)
    requires RowInv(k)
    ensures RowInv(WithStatus(k, attempt, status))
  {
    var k' := WithStatus(k, attempt, status);
    if k.proposedAt.Some? {
      assert Deadline(k') == Deadline(k);
    }
  }

  lemma WriteIsRowChange(s: Sys, t: TaskId, k': Market)
    requires t in s.tasks && s.tasks[t].market in s.markets && Continues(s.markets[s.tasks[t].market], k')
    requires (forall u :: u in s.tasks ==> TaskInv(s, u)) && TasksDistinct(s)
    requires k'.calls == s.markets[s.tasks[t].market].calls
    requires forall a: nat :: a != s.tasks[t].attempt ==> SameStatus(s.markets[s.tasks[t].market], k', a)
    ensures RowChange(s, s.(markets := s.markets[s.tasks[t].market := k'], tasks := s.tasks - {t}), s.tasks[t].market)
  {
    var m := s.tasks[t].market;
    var s' := s.(markets := s.markets[m := k'], tasks := s.tasks - {t});
    forall u | u in s'.tasks && s'.tasks[u].market == m ensures SameStatus(s.markets[m], k', s'.tasks[u].attempt) {
      assert s.tasks[u].attempt != s.tasks[t].attempt;
    }
    forall u | u in s'.tasks && s'.tasks[u].phase == Calling && s'.tasks[u].market == m
      ensures Uncalled(k', s'.tasks[u].attempt)
    {
      assert TaskInv(s, u);
    }
  }

  lemma WriteKeepsInv(s: Sys, t: TaskId, k': Market)
    requires CoreInv(s) && t in s.tasks && s.tasks[t].market in s.markets && RowInv(k')
    requires Continues(s.markets[s.tasks[t].market], k') && k'.calls == s.markets[s.tasks[t].market].calls
    requires forall a: nat :: a != s.tasks[t].attempt ==> SameStatus(s.markets[s.tasks[t].market], k', a)
    ensures CoreInv(s.(markets := s.markets[s.tasks[t].market := k'], tasks := s.tasks - {t}))
  {
    var m := s.tasks[t].market;
    WriteIsRowChange(s, t, k');
    RowChangeKeepsInv(s, s.(markets := s.markets[m := k'], tasks := s.tasks - {t}), m);
  }

  /** `k'` may be written for the settlement `t`: it changes only what `t` owns. */
  ghost predicate Writes(s: Sys, t: TaskId, k': Market)
    requires t in s.tasks && s.tasks[t].market in s.markets
  {
    var k := s.markets[s.tasks[t].market];
    && RowInv(k') && Continues(k, k') && k'.calls == k.calls
    && forall a: nat :: a != s.tasks[t].attempt ==> SameStatus(k, k', a)
  }

  lemma WrittenWithQueue(s: Sys, t: TaskId, k': Market, queue: map<MarketId, RetryInfo>)
    requires CoreInv(s) && t in s.tasks && s.tasks[t].market in s.markets && Writes(s, t, k')
    requires queue.Keys <= InstanceOf(s, s.tasks[t].instance).queue.Keys + {s.tasks[t].market}
    ensures CoreInv(WithQueue(s.(markets := s.markets[s.tasks[t].market := k'], tasks := s.tasks - {t}),
                              s.tasks[t].instance, queue))
  {
    var task := s.tasks[t];
    var s' := s.(markets := s.markets[task.market := k'], tasks := s.tasks - {t});
    WriteKeepsInv(s, t, k');
    MemoryIsRipe(s', task.instance);
    assert TaskInv(s, t);
    assert Ripe(s', task.market);
    WithQueueKeepsInv(s', task.instance, queue);
  }

  lemma FinalizeWrites(s: Sys, t: TaskId)
    requires CoreInv(s) && t in s.tasks && s.tasks[t].market in s.markets
    ensures Writes(s, t, Finalized(s.markets[s.tasks[t].market], s.tasks[t].attempt, s.tasks[t].outcome, s.now))
  {
    var task := s.tasks[t];
    assert TaskInv(s, t) && RowInv(s.markets[task.market]);
    FinalizeKeepsRow(s.markets[task.market], task.attempt, task.outcome, s.now);
  }

  lemma FailureWrites(s: Sys, t: TaskId)
    requires CoreInv(s) && t in s.tasks && s.tasks[t].market in s.markets
    ensures Writes(s, t, WithStatus(s.markets[s.tasks[t].market], s.tasks[t].attempt, Failed))
  {
    var task := s.tasks[t];
    assert TaskInv(s, t) && RowInv(s.markets[task.market]);
    StatusKeepsRow(s.markets[task.market], task.attempt, Failed);
  }

  lemma WriteBackKeepsInv(s: Sys, t: TaskId)
    requires CoreInv(s) && t in s.tasks && s.tasks[t].market in s.markets
    ensures CoreInv(NextWriteBack(s, t))
  {
    var task := s.tasks[t];
    var queue := InstanceOf(s, task.instance).queue;
    if task.phase == Succeeded {
      FinalizeWrites(s, t);
      WrittenWithQueue(s, t, Finalized(s.markets[task.market], task.attempt, task.outcome, s.now),
                       if task.viaRetry then queue - {task.market} else queue);
    } else {
      FailureWrites(s, t);
      var failed := Enqueued(queue, task.market, s.now);
      WrittenWithQueue(s, t, WithStatus(s.markets[task.market], task.attempt, Failed),
                       if task.viaRetry then Bumped(failed, task.market, s.now) else failed);
    }
  }

  lemma ForgetKeepsInv(s: Sys, s': Sys)
    requires CoreInv(s) && s'.markets == s.markets && s'.now >= s.now
    requires forall t :: t in s'.tasks ==> t in s.tasks && s'.tasks[t] == s.tasks[t]
    requires forall i :: i in s'.instances ==> i in s.instances && s'.instances[i] == s.instances[i]
    ensures CoreInv(s')
  {
    forall i | i in s'.instances ensures MemoryInv(s', i) {
      assert MemoryInv(s, i);
    }
    forall t | t in s'.tasks ensures TaskInv(s', t) {
      assert TaskInv(s, t);
    }
  }

  lemma ProposeKeepsRow(k: Market, outcome: string, grace: Option<nat>, authorized: bool, now: int)
    requires RowInv(k) && Propose(k, outcome, grace, authorized, now).Ok?
    ensures
      var k' := Propose(k, outcome, grace, authorized, now).value;
      RowInv(k') && UserMove(k, k')
  {
  }

  lemma ChallengeKeepsRow(k: Market, now: int)
    requires RowInv(k) && Challenge(k, now).Ok?
    ensures RowInv(Challenge(k, now).value) && UserMove(k, Challenge(k, now).value)
  {
    assert Deadline(Challenge(k, now).value) == Deadline(k);
  }

  lemma AdminCallKeepsRow(k: Market, outcome: string, chainOk: bool, now: int)
    requires RowInv(k) && k.state in {Settling, Challenged, Settled} && outcome in k.options
    ensures RowInv(AdminCalled(k, outcome, chainOk, now)) && UserMove(k, AdminCalled(k, outcome, chainOk, now))
  {
    assert Deadline(AdminCalled(k, outcome, chainOk, now)) == Deadline(k);
  }

  lemma SaveKeepsRow(k: Market, outcome: string, counter: nat, now: int)
    requires RowInv(k) && k.state in {Settling, Challenged, Settled}
    requires outcome in k.options && counter <= |k.attempts|
    ensures RowInv(Saved(k, outcome, counter, now)) && UserMove(k, Saved(k, outcome, counter, now))
  {
    assert Deadline(Saved(k, outcome, counter, now)) == Deadline(k);
  }

  /** Only rows, settlements and memory matter for `CoreInv`. */
  lemma RequestsDoNotMatter(s: Sys, requests: map<RequestId, Request>)
    requires CoreInv(s)
    ensures CoreInv(s.(requests := requests))
  {
    var s' := s.(requests := requests);
    forall i | i in s'.instances ensures MemoryInv(s', i) {
      assert MemoryInv(s, i);
    }
    forall t | t in s'.tasks ensures TaskInv(s', t) {
      assert TaskInv(s, t);
    }
  }

  lemma AdminCallKeepsCore(s: Sys, r: RequestId, chainOk: bool)
    requires Inv(s) && IsOpen(s, r, Calling)
    ensures CoreInv(NextAdminCall(s, r, chainOk))
  {
    var q := s.requests[r];
    assert RequestInv(s, r) && RowInv(s.markets[q.market]);
    var k' := AdminCalled(s.markets[q.market], q.outcome, chainOk, s.now);
    AdminCallKeepsRow(s.markets[q.market], q.outcome, chainOk, s.now);
    UserStepKeepsInv(s, q.market, k');
    RequestsDoNotMatter(s.(markets := s.markets[q.market := k']), NextAdminCall(s, r, chainOk).requests);
  }

  lemma SaveKeepsCore(s: Sys, r: RequestId)
    requires Inv(s) && IsOpen(s, r, Succeeded)
    ensures CoreInv(NextSave(s, r))
  {
    var q := s.requests[r];
    assert RequestInv(s, r) && RowInv(s.markets[q.market]);
    var k' := Saved(s.markets[q.market], q.outcome, q.counter, s.now);
    SaveKeepsRow(s.markets[q.market], q.outcome, q.counter, s.now);
    UserStepKeepsInv(s, q.market, k');
    RequestsDoNotMatter(s.(markets := s.markets[q.market := k']), NextSave(s, r).requests);
  }

  /** Beginning or dropping an adjudication, and a call or save that is not possible. */
  lemma OtherAdminKeepsCore(s: Sys, step: Step)
    requires CoreInv(s) && IsAdminStep(step)
    requires step.CallForAdjudication? ==> !IsOpen(s, step.r, Calling)
    requires step.SaveAdjudication? ==> !IsOpen(s, step.r, Succeeded)
    ensures CoreInv(Next(s, step))
  {
    var requests := Next(s, step).requests;
    assert Next(s, step) == s.(requests := requests);
    RequestsDoNotMatter(s, requests);
  }

  lemma AdminStepKeepsCore(s: Sys, step: Step)
    requires Inv(s) && IsAdminStep(step)
    ensures CoreInv(Next(s, step))
  {
    if step.CallForAdjudication? && IsOpen(s, step.r, Calling) {
      AdminCallKeepsCore(s, step.r, step.chainOk);
      assert Next(s, step) == NextAdminCall(s, step.r, step.chainOk);
    } else if step.SaveAdjudication? && IsOpen(s, step.r, Succeeded) {
      SaveKeepsCore(s, step.r);
      assert Next(s, step) == NextSave(s, step.r);
    } else {
      OtherAdminKeepsCore(s, step);
    }
  }

  // ---------------------------------------------------------------- adjudications

  /** An open adjudication in `s'` was open before, for the same outcome and with the same counter. */
  predicate Carried(s: Sys, s': Sys, r: RequestId)
    requires r in s'.requests
  {
    r in s.requests && s'.requests[r].(phase := s.requests[r].phase) == s.requests[r]
  }

  lemma RequestStays(s: Sys, s': Sys, r: RequestId)
    requires r in s'.requests && Carried(s, s', r) && RequestInv(s, r)
    requires
      var m := s.requests[r].market;
      m in s'.markets && Onward(s.markets[m], s'.markets[m])
    ensures RequestInv(s', r)
  {
  }

  lemma RequestsAreCarried(s: Sys, step: Step, r: RequestId)
    requires r in Next(s, step).requests && !step.BeginAdjudication?
    ensures Carried(s, Next(s, step), r)
  {
  }

  lemma BeginKeepsRequests(s: Sys, r: RequestId, m: MarketId, outcome: string)
    requires Inv(s) && r !in s.requests && m in s.markets && MayAdjudicate(s.markets[m], outcome, true)
    ensures RequestsInv(NextBegin(s, r, m, outcome))
  {
    assert RowInv(s.markets[m]);
    var s' := NextBegin(s, r, m, outcome);
    forall q | q in s'.requests ensures RequestInv(s', q) {
      if q != r {
        assert RequestInv(s, q);
      }
    }
  }

  lemma NextKeepsRequests(s: Sys, step: Step)
    requires Inv(s)
    ensures RequestsInv(Next(s, step))
  {
    if step.BeginAdjudication? {
      if Next(s, step) != s {
        BeginKeepsRequests(s, step.r, step.m, step.outcome);
      }
    } else {
      var s' := Next(s, step);
      forall r | r in s'.requests ensures RequestInv(s', r) {
        RequestsAreCarried(s, step, r);
        assert RequestInv(s, r);
        NextGoesOnward(s, step, s.requests[r].market);
        RequestStays(s, s', r);
      }
    }
  }

  lemma UserRequestKeepsInv(s: Sys, step: Step)
    requires CoreInv(s) && (step.ProposeResolution? || step.ChallengeResolution?)
    ensures CoreInv(Next(s, step))
  {
    var m := step.m;
    if m in s.markets {
      var k := s.markets[m];
      assert RowInv(k);
      match step
      case ProposeResolution(_, outcome, grace, authorized, readAt) =>
        var r := Propose(k, outcome, grace, authorized, readAt);
        if r.Ok? {
          ProposeKeepsRow(k, outcome, grace, authorized, readAt);
          UserStepKeepsInv(s, m, r.value);
        }
      case ChallengeResolution(_, readAt) =>
        var r := Challenge(k, readAt);
        if r.Ok? {
          ChallengeKeepsRow(k, readAt);
          UserStepKeepsInv(s, m, r.value);
        }
    }
  }

  /** Every step keeps the invariant. */
  lemma NextKeepsInv(s: Sys, step: Step)
    requires Inv(s)
    ensures Inv(Next(s, step))
  {
    NextKeepsRequests(s, step);
    if IsAdminStep(step) {
      AdminStepKeepsCore(s, step);
    } else {
      NextKeepsCore(s, step);
    }
  }

  lemma ReadStaleKeepsCore(s: Sys, i: InstanceId, picked: set<MarketId>)
    requires CoreInv(s) && forall m :: m in picked ==> m in s.markets && IsStale(s.markets[m], s.now)
    ensures CoreInv(AddWork(s, i, Items(picked, false)))
  {
    forall m | m in picked ensures Ripe(s, m) {
      StaleIsRipe(s, m);
    }
    ReadKeepsInv(s, i, picked, false);
  }

  lemma ReadRetriesKeepsCore(s: Sys, i: InstanceId, picked: set<MarketId>)
    requires CoreInv(s) && forall m :: m in picked ==> m in InstanceOf(s, i).queue
    ensures CoreInv(AddWork(s, i, Items(picked, true)))
  {
    MemoryIsRipe(s, i);
    ReadKeepsInv(s, i, picked, true);
  }

  lemma RetryKeepsCore(s: Sys, i: InstanceId, m: MarketId)
    requires CoreInv(s) && m in InstanceOf(s, i).queue
    ensures CoreInv(AddWork(s, i, multiset{WorkItem(m, true)}))
  {
    MemoryIsRipe(s, i);
    AddWorkKeepsInv(s, i, multiset{WorkItem(m, true)});
  }

  lemma ReadingKeepsCore(s: Sys, step: Step)
    requires CoreInv(s) && Next(s, step) != s
    requires step.ReadDue? || step.ReadStale? || step.ReadRetries? || step.RetryByAdmin?
    ensures CoreInv(Next(s, step))
  {
    match step
    case ReadDue(i, picked) => ReadKeepsInv(s, i, picked, false);
    case ReadStale(i, picked) => ReadStaleKeepsCore(s, i, picked);
    case ReadRetries(i, picked) => ReadRetriesKeepsCore(s, i, picked);
    case RetryByAdmin(i, m) => RetryKeepsCore(s, i, m);
  }

  lemma WritingKeepsCore(s: Sys, step: Step)
    requires CoreInv(s) && WritesRows(step) && Next(s, step) != s
    ensures CoreInv(Next(s, step))
  {
    match step
    case ClaimMarket(i, item, t, gotLock) => ClaimKeepsInv(s, i, item, t, gotLock);
    case CallChain(t, chainOk) => CallKeepsInv(s, t, chainOk);
    case WriteBack(t) => WriteBackKeepsInv(s, t);
  }

  lemma ForgettingKeepsCore(s: Sys, step: Step)
    requires CoreInv(s) && (step.Tick? || step.Abandon? || step.Crash?)
    ensures CoreInv(Next(s, step))
  {
    ForgetKeepsInv(s, Next(s, step));
  }

  lemma NextKeepsCore(s: Sys, step: Step)
    requires CoreInv(s) && !IsAdminStep(step)
    ensures CoreInv(Next(s, step))
  {
    if step.ProposeResolution? || step.ChallengeResolution? {
      UserRequestKeepsInv(s, step);
    } else if step.Tick? || step.Abandon? || step.Crash? {
      ForgettingKeepsCore(s, step);
    } else if step.DropWork? {
      MemoryIsRipe(s, step.i);
      InstanceReplaced(s, step.i, InstanceOf(s, step.i).(work := multiset{}));
    } else if Next(s, step) != s {
      if WritesRows(step) {
        WritingKeepsCore(s, step);
      } else {
        ReadingKeepsCore(s, step);
      }
    }
  }

  lemma {:induction false} RunKeepsInv(s: Sys, steps: seq<Step>)
    requires Inv(s)
    ensures Inv(Run(s, steps))
    decreases |steps|
  {
    if steps != [] {
      NextKeepsInv(s, steps[0]);
      RunKeepsInv(Next(s, steps[0]), steps[1..]);
    }
  }

  lemma InitialHasInv(s: Sys)
    requires Initial(s)
    ensures Inv(s)
  {
  }
}
