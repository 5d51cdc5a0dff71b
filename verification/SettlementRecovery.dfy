/**
 Which markets the scheduler can still get to: a SETTLING market is picked up again by
 stale recovery, by a retry entry or by a list an instance still holds. The exact
 conditions for that, over all runs.
 */
module SettlementRecovery {
  import opened SettlementState
  import opened Settlement
  import opened SettlementSafety
  import opened SettlementTheorems

  // -------------------------------------------------------------- the conditions

  predicate LastResolving(k: Market) {
    k.attempts != [] && k.attempts[|k.attempts| - 1].status == Resolving
  }

  /** The instance holds `m` in its retry queue or in a list it is working through. */
  predicate Remembers(inst: Instance, m: MarketId) {
    m in inst.queue || WorkItem(m, false) in inst.work || WorkItem(m, true) in inst.work
  }

  predicate Forgotten(s: Sys, m: MarketId) {
    forall i :: i in s.instances ==> !Remembers(s.instances[i], m)
  }

  /** Every settlement of `m` in progress succeeded on chain and only has to be written back. */
  predicate OnlySucceeded(s: Sys, m: MarketId) {
    forall t :: t in s.tasks && s.tasks[t].market == m ==> s.tasks[t].phase == Succeeded
  }

  predicate Exhausted(k: Market) {
    k.attemptCount >= MAX_RETRY_ATTEMPTS
  }

  /** Nothing leads to another claim: no attempt is left, or nothing would pick the market up. */
  predicate Unclaimable(s: Sys, m: MarketId)
    requires m in s.markets
  {
    Exhausted(s.markets[m]) || Unreachable(s, m)
  }

  predicate Unreachable(s: Sys, m: MarketId)
    requires m in s.markets
  {
    !LastResolving(s.markets[m]) && OnlySucceeded(s, m) && Forgotten(s, m)
  }

  predicate Stuck(s: Sys, m: MarketId)
    requires m in s.markets
  {
    NoTasks(s, m) && Unclaimable(s, m)
  }

  // ------------------------------------------------------------- it stays that way

  /** Memory changed for the instance `i` only, which does not hold `m` afterwards. */
  lemma ForgottenStays(s: Sys, s': Sys, i: InstanceId, m: MarketId)
    requires Forgotten(s, m)
    requires forall j :: j in s'.instances && j != i ==> j in s.instances && s'.instances[j] == s.instances[j]
    requires i in s'.instances ==> !Remembers(s'.instances[i], m)
    ensures Forgotten(s', m)
  {
  }

  lemma InstanceForgets(s: Sys, i: InstanceId, m: MarketId)
    requires Forgotten(s, m)
    ensures !Remembers(InstanceOf(s, i), m)
  {
  }

  lemma AddWorkForgets(s: Sys, i: InstanceId, items: multiset<WorkItem>, m: MarketId)
    requires Forgotten(s, m) && WorkItem(m, false) !in items && WorkItem(m, true) !in items
    ensures Forgotten(AddWork(s, i, items), m)
  {
    InstanceForgets(s, i, m);
    ForgottenStays(s, AddWork(s, i, items), i, m);
  }

  lemma ReadForgets(s: Sys, i: InstanceId, picked: set<MarketId>, viaRetry: bool, m: MarketId)
    requires Forgotten(s, m) && m !in picked
    ensures Forgotten(AddWork(s, i, Items(picked, viaRetry)), m)
  {
    AddWorkForgets(s, i, Items(picked, viaRetry), m);
  }

  lemma NotClaimedWhenForgotten(s: Sys, i: InstanceId, item: WorkItem, m: MarketId)
    requires Forgotten(s, m) && item in InstanceOf(s, i).work
    ensures item.market != m
  {
    InstanceForgets(s, i, m);
    assert item == WorkItem(item.market, item.viaRetry);
  }

  lemma ClaimForgets(s: Sys, i: InstanceId, item: WorkItem, t: TaskId, gotLock: bool, m: MarketId)
    requires Forgotten(s, m) && item in InstanceOf(s, i).work
    ensures Forgotten(NextClaim(s, i, item, t, gotLock), m)
  {
    var s' := NextClaim(s, i, item, t, gotLock);
    InstanceForgets(s, i, m);
    NotClaimedWhenForgotten(s, i, item, m);
    assert s'.instances.Keys == s.instances.Keys + {i};
    assert s'.instances[i].work == InstanceOf(s, i).work - multiset{item};
    assert s'.instances[i].queue.Keys <= InstanceOf(s, i).queue.Keys;
    ForgottenStays(s, s', i, m);
  }

  lemma WriteBackForgets(s: Sys, t: TaskId, m: MarketId)
    requires Forgotten(s, m) && t in s.tasks && s.tasks[t].market in s.markets
    requires s.tasks[t].market == m ==> s.tasks[t].phase == Succeeded
    ensures Forgotten(NextWriteBack(s, t), m)
  {
    var i := s.tasks[t].instance;
    var s' := NextWriteBack(s, t);
    InstanceForgets(s, i, m);
    assert s'.instances[i].work == InstanceOf(s, i).work && m !in s'.instances[i].queue;
    ForgottenStays(s, s', i, m);
  }

  lemma NotPicked(s: Sys, picked: set<MarketId>, m: MarketId)
    requires m in s.markets && s.markets[m].state == Settling && !LastResolving(s.markets[m])
    requires forall n :: n in picked ==> n in s.markets && (IsDue(s.markets[n], s.now) || IsStale(s.markets[n], s.now))
    ensures m !in picked
  {
  }

  /** A step by which an instance takes up markets to try. */
  predicate Collects(step: Step) {
    step.ReadDue? || step.ReadStale? || step.ReadRetries? || step.RetryByAdmin?
  }

  lemma CollectingForgets(s: Sys, step: Step, m: MarketId)
    requires m in s.markets && s.markets[m].state == Settling && !LastResolving(s.markets[m]) && Forgotten(s, m)
    requires Collects(step)
    ensures Forgotten(Next(s, step), m)
  {
    InstanceForgets(s, step.i, m);
    if Next(s, step) != s {
      match step
      case ReadDue(i, picked) =>
        NotPicked(s, picked, m);
        ReadForgets(s, i, picked, false, m);
      case ReadStale(i, picked) =>
        NotPicked(s, picked, m);
        ReadForgets(s, i, picked, false, m);
      case ReadRetries(i, picked) => ReadForgets(s, i, picked, true, m);
      case RetryByAdmin(i, n) => AddWorkForgets(s, i, multiset{WorkItem(n, true)}, m);
    }
  }

  /** A SETTLING market that nothing would pick up is remembered by no instance after any step. */
  lemma StepForgets(s: Sys, step: Step, m: MarketId)
    requires m in s.markets && s.markets[m].state == Settling && Unreachable(s, m)
    ensures Forgotten(Next(s, step), m)
  {
    if Collects(step) {
      CollectingForgets(s, step, m);
      return;
    }
    match step
    case ClaimMarket(i, item, t, gotLock) =>
      if item in InstanceOf(s, i).work && t !in s.tasks {
        ClaimForgets(s, i, item, t, gotLock, m);
      }
    case WriteBack(t) =>
      if Next(s, step) != s {
        WriteBackForgets(s, t, m);
      }
    case DropWork(i) =>
      InstanceForgets(s, i, m);
      ForgottenStays(s, Next(s, step), i, m);
    case _ =>
  }

  /** What a step may do to a SETTLING row that cannot be claimed and is not saved by an adjudication. */
  predicate NoNewAttempt(k: Market, k': Market) {
    && k'.state in {Settling, Settled} && k'.attemptCount == k.attemptCount && |k'.attempts| == |k.attempts|
    && (LastResolving(k') ==> LastResolving(k))
  }

  lemma ClaimAddsNone(s: Sys, i: InstanceId, item: WorkItem, t: TaskId, gotLock: bool, m: MarketId)
    requires m in s.markets && s.markets[m].state == Settling && Unclaimable(s, m)
    requires item in InstanceOf(s, i).work && t !in s.tasks
    ensures NextClaim(s, i, item, t, gotLock).markets[m] == s.markets[m]
    ensures forall u :: u in NextClaim(s, i, item, t, gotLock).tasks && u !in s.tasks ==>
              NextClaim(s, i, item, t, gotLock).tasks[u].market != m
  {
    if !Exhausted(s.markets[m]) {
      NotClaimedWhenForgotten(s, i, item, m);
    }
  }

  lemma WriteBackAddsNone(s: Sys, t: TaskId, m: MarketId)
    requires m in s.markets && s.markets[m].state == Settling && t in s.tasks && s.tasks[t].market in s.markets
    ensures NoNewAttempt(s.markets[m], NextWriteBack(s, t).markets[m])
  {
  }

  lemma RowStaysUnclaimed(s: Sys, step: Step, m: MarketId)
    requires m in s.markets && s.markets[m].state == Settling && Unclaimable(s, m)
    requires !(step.SaveAdjudication? && step.r in s.requests && s.requests[step.r].market == m)
    ensures m in Next(s, step).markets && NoNewAttempt(s.markets[m], Next(s, step).markets[m])
  {
    if step.ClaimMarket? {
      if step.item in InstanceOf(s, step.i).work && step.t !in s.tasks {
        ClaimAddsNone(s, step.i, step.item, step.t, step.gotLock, m);
      }
    } else if step.WriteBack? {
      if Next(s, step) != s {
        WriteBackAddsNone(s, step.t, m);
      }
    } else if IsSchedulerStep(step) && !WritesRows(step) {
      OthersKeepRows(s, step);
    } else {
      CallsAddNone(s, step, m);
    }
  }

  lemma CallsAddNone(s: Sys, step: Step, m: MarketId)
    requires m in s.markets && s.markets[m].state == Settling && (!IsSchedulerStep(step) || step.CallChain?)
    requires !(step.SaveAdjudication? && step.r in s.requests && s.requests[step.r].market == m)
    ensures m in Next(s, step).markets && NoNewAttempt(s.markets[m], Next(s, step).markets[m])
  {
  }

  lemma TasksStaySucceeded(s: Sys, step: Step, m: MarketId)
    requires m in s.markets && s.markets[m].state == Settling && Unclaimable(s, m)
    ensures OnlySucceeded(s, m) ==> OnlySucceeded(Next(s, step), m)
    ensures NoTasks(s, m) ==> NoTasks(Next(s, step), m)
  {
    if step.ClaimMarket? {
      if step.item in InstanceOf(s, step.i).work && step.t !in s.tasks {
        ClaimAddsNone(s, step.i, step.item, step.t, step.gotLock, m);
      }
    } else {
      OthersStartNone(s, step, m);
    }
  }

  /** Only a claim starts a settlement, and only a call can make one succeed or fail. */
  lemma OthersStartNone(s: Sys, step: Step, m: MarketId)
    requires !step.ClaimMarket?
    ensures OnlySucceeded(s, m) ==> OnlySucceeded(Next(s, step), m)
    ensures NoTasks(s, m) ==> NoTasks(Next(s, step), m)
  {
  }

  lemma UnclaimableStays(s: Sys, step: Step, m: MarketId)
    requires m in s.markets && s.markets[m].state == Settling && Unclaimable(s, m)
    requires !(step.SaveAdjudication? && step.r in s.requests && s.requests[step.r].market == m)
    ensures m in Next(s, step).markets && NoNewAttempt(s.markets[m], Next(s, step).markets[m])
    ensures Unclaimable(Next(s, step), m)
  {
    RowStaysUnclaimed(s, step, m);
    if !Exhausted(s.markets[m]) {
      TasksStaySucceeded(s, step, m);
      StepForgets(s, step, m);
    }
  }

  lemma StuckRowStays(s: Sys, step: Step, m: MarketId)
    requires m in s.markets && s.markets[m].state == Settling && Stuck(s, m) && !Adjudicates(s, step, m)
    ensures m in Next(s, step).markets && Next(s, step).markets[m] == s.markets[m]
  {
    if step.ClaimMarket? && step.item in InstanceOf(s, step.i).work && step.t !in s.tasks {
      ClaimAddsNone(s, step.i, step.item, step.t, step.gotLock, m);
    }
  }

  /** Whatever the instances do, a stuck market is never changed again without an adjudication. */
  lemma {:induction false} StuckForever(s: Sys, steps: seq<Step>, m: MarketId)
    requires m in s.markets && s.markets[m].state == Settling && Stuck(s, m) && Quiet(s, steps, m)
    ensures m in Run(s, steps).markets && Run(s, steps).markets[m] == s.markets[m]
    decreases |steps|
  {
    if steps != [] {
      StuckRowStays(s, steps[0], m);
      TasksStaySucceeded(s, steps[0], m);
      UnclaimableStays(s, steps[0], m);
      StuckForever(Next(s, steps[0]), steps[1..], m);
    }
  }

  /** No claim of `m` from here on: it is settled, or SETTLING and unclaimable. */
  predicate NoMoreClaims(s: Sys, m: MarketId) {
    m in s.markets && (s.markets[m].state == Settled || (s.markets[m].state == Settling && Unclaimable(s, m)))
  }

  lemma SettledRowKeepsAttempts(s: Sys, step: Step, m: MarketId)
    requires m in s.markets && s.markets[m].state == Settled
    ensures m in Next(s, step).markets && |Next(s, step).markets[m].attempts| == |s.markets[m].attempts|
  {
    if IsSchedulerStep(step) && !WritesRows(step) {
      OthersKeepRows(s, step);
    } else if step.WriteBack? {
      if Next(s, step) != s {
        WriteBackKeepsAttempts(s, step.t, m);
      }
    }
  }

  lemma WriteBackKeepsAttempts(s: Sys, t: TaskId, m: MarketId)
    requires m in s.markets && t in s.tasks && s.tasks[t].market in s.markets
    ensures |NextWriteBack(s, t).markets[m].attempts| == |s.markets[m].attempts|
  {
  }

  lemma {:induction false} NeverClaimedAgain(s: Sys, steps: seq<Step>, m: MarketId)
    requires NoMoreClaims(s, m) && Quiet(s, steps, m)
    ensures m in Run(s, steps).markets && |Run(s, steps).markets[m].attempts| == |s.markets[m].attempts|
    decreases |steps|
  {
    if steps != [] {
      if s.markets[m].state == Settled {
        NextGoesOnward(s, steps[0], m);
        SettledRowKeepsAttempts(s, steps[0], m);
      } else {
        UnclaimableStays(s, steps[0], m);
      }
      NeverClaimedAgain(Next(s, steps[0]), steps[1..], m);
    }
  }

  // ------------------------------------------------------------ otherwise it is reached

  lemma {:induction false} FreshId(used: set<nat>) returns (t: nat)
    ensures t !in used && forall u :: u in used ==> u < t
    decreases |used|
  {
    if used == {} {
      t := 0;
    } else {
      var u :| u in used;
      var above := FreshId(used - {u});
      t := if above > u then above else u + 1;
      assert forall v :: v in used ==> v == u || v in used - {u};
    }
  }

  /** A settlement of `m` that has claimed `o` and is about to call the chain. */
  predicate AboutToCall(s: Sys, m: MarketId, o: string) {
    exists t :: t in s.tasks && s.tasks[t].market == m && s.tasks[t].phase == Calling && s.tasks[t].outcome == o
  }

  /** The steps claim `m` once more and touch no adjudication. */
  ghost predicate Reclaims(s: Sys, steps: seq<Step>, m: MarketId)
    requires m in s.markets
  {
    var s' := Run(s, steps);
    && (forall j :: 0 <= j < |steps| ==> !IsAdminStep(steps[j]))
    && s'.requests == s.requests && m in s'.markets && s'.markets[m].state == Settling
    && |s'.markets[m].attempts| > |s.markets[m].attempts|
    && s.markets[m].proposed.Some? && AboutToCall(s', m, s.markets[m].proposed.value)
  }

  lemma {:induction false} PlainStepsAreQuiet(s: Sys, steps: seq<Step>, m: MarketId)
    requires forall j :: 0 <= j < |steps| ==> !IsAdminStep(steps[j])
    ensures Quiet(s, steps, m)
    decreases |steps|
  {
    if steps != [] {
      PlainStepsAreQuiet(Next(s, steps[0]), steps[1..], m);
    }
  }

  lemma RunOne(s: Sys, step: Step)
    ensures Run(s, [step]) == Next(s, step)
  {
    assert [step][1..] == [];
  }

  /** A plain step that leaves the proposal and the adjudications alone can come first. */
  lemma ReclaimsAfter(s: Sys, step: Step, steps: seq<Step>, m: MarketId)
    requires m in s.markets && !IsAdminStep(step)
    requires
      var s1 := Next(s, step);
      && m in s1.markets && s1.requests == s.requests && s1.markets[m].proposed == s.markets[m].proposed
      && |s1.markets[m].attempts| == |s.markets[m].attempts| && Reclaims(s1, steps, m)
    ensures Reclaims(s, [step] + steps, m)
  {
    assert ([step] + steps)[1..] == steps;
  }

  lemma ReclaimFromWork(s: Sys, i: InstanceId, item: WorkItem, m: MarketId) returns (steps: seq<Step>)
    requires m in s.markets && s.markets[m].state == Settling && Claimable(s.markets[m])
    requires item in InstanceOf(s, i).work && item.market == m
    ensures Reclaims(s, steps, m)
  {
    var t := FreshId(s.tasks.Keys);
    steps := [ClaimMarket(i, item, t, true)];
    RunOne(s, steps[0]);
    var s' := Next(s, steps[0]);
    assert t in s'.tasks && s'.tasks[t].market == m && s'.tasks[t].phase == Calling;
  }

  lemma ReclaimFromMemory(s: Sys, i: InstanceId, m: MarketId) returns (steps: seq<Step>)
    requires m in s.markets && s.markets[m].state == Settling && Claimable(s.markets[m])
    requires i in s.instances && Remembers(s.instances[i], m)
    ensures Reclaims(s, steps, m)
  {
    if WorkItem(m, false) in s.instances[i].work {
      steps := ReclaimFromWork(s, i, WorkItem(m, false), m);
    } else if WorkItem(m, true) in s.instances[i].work {
      steps := ReclaimFromWork(s, i, WorkItem(m, true), m);
    } else {
      var retry := RetryByAdmin(i, m);
      steps := ReclaimFromWork(Next(s, retry), i, WorkItem(m, true), m);
      ReclaimsAfter(s, retry, steps, m);
      steps := [retry] + steps;
    }
  }

  lemma ReclaimStale(s: Sys, m: MarketId) returns (steps: seq<Step>)
    requires m in s.markets && s.markets[m].state == Settling && Claimable(s.markets[m]) && LastResolving(s.markets[m])
    ensures Reclaims(s, steps, m)
  {
    var k := s.markets[m];
    var wait := k.attempts[|k.attempts| - 1].claimedAt + STALE_SETTLING_THRESHOLD_MS - s.now;
    var tick, read := Tick(if wait > 0 then wait else 0), ReadStale(0, {m});
    var s1 := Next(s, tick);
    var s2 := Next(s1, read);
    assert s2 == AddWork(s1, 0, Items({m}, false));
    assert WorkItem(m, false) in Items({m}, false);
    assert WorkItem(m, false) in InstanceOf(s2, 0).work;
    steps := ReclaimFromWork(s2, 0, WorkItem(m, false), m);
    ReclaimsAfter(s1, read, steps, m);
    ReclaimsAfter(s, tick, [read] + steps, m);
    steps := [tick] + ([read] + steps);
  }

  /** A rejected settlement is written back as a failure, which puts the market into a retry queue. */
  lemma ReclaimRejected(s: Sys, t: TaskId, m: MarketId) returns (steps: seq<Step>)
    requires m in s.markets && s.markets[m].state == Settling && Claimable(s.markets[m])
    requires t in s.tasks && s.tasks[t].market == m && s.tasks[t].phase == Rejected
    ensures Reclaims(s, steps, m)
  {
    var s1 := Next(s, WriteBack(t));
    assert s1 == NextWriteBack(s, t);
    var i := s.tasks[t].instance;
    assert i in s1.instances && m in s1.instances[i].queue;
    assert s1.markets[m] == WithStatus(s.markets[m], s.tasks[t].attempt, Failed);
    steps := ReclaimFromMemory(s1, i, m);
    ReclaimsAfter(s, WriteBack(t), steps, m);
    steps := [WriteBack(t)] + steps;
  }

  lemma ReclaimCalling(s: Sys, t: TaskId, m: MarketId) returns (steps: seq<Step>)
    requires m in s.markets && s.markets[m].state == Settling && Claimable(s.markets[m])
    requires t in s.tasks && s.tasks[t].market == m && s.tasks[t].phase == Calling
    ensures Reclaims(s, steps, m)
  {
    var call := CallChain(t, false);
    assert Next(s, call) == NextCall(s, t, false);
    steps := ReclaimRejected(Next(s, call), t, m);
    ReclaimsAfter(s, call, steps, m);
    steps := [call] + steps;
  }

  lemma SettlingIsClaimable(s: Sys, m: MarketId)
    requires Inv(s) && m in s.markets && s.markets[m].state == Settling && !Exhausted(s.markets[m])
    ensures Claimable(s.markets[m])
  {
    assert RowInv(s.markets[m]);
  }

  lemma Reclaimable(s: Sys, m: MarketId) returns (steps: seq<Step>)
    requires Inv(s) && m in s.markets && s.markets[m].state == Settling && !Unclaimable(s, m)
    ensures Reclaims(s, steps, m)
  {
    SettlingIsClaimable(s, m);
    if LastResolving(s.markets[m]) {
      steps := ReclaimStale(s, m);
    } else if !Forgotten(s, m) {
      var i :| i in s.instances && Remembers(s.instances[i], m);
      steps := ReclaimFromMemory(s, i, m);
    } else {
      var t :| t in s.tasks && s.tasks[t].market == m && s.tasks[t].phase != Succeeded;
      if s.tasks[t].phase == Calling {
        steps := ReclaimCalling(s, t, m);
      } else {
        steps := ReclaimRejected(s, t, m);
      }
    }
  }

  /** A settlement in progress can always change the row: by its call, or by what it writes back. */
  lemma TaskChangesRow(s: Sys, t: TaskId, m: MarketId) returns (step: Step)
    requires Inv(s) && m in s.markets && s.markets[m].state == Settling && t in s.tasks && s.tasks[t].market == m
    ensures !IsAdminStep(step) && m in Next(s, step).markets && Next(s, step).markets[m] != s.markets[m]
  {
    assert TaskInv(s, t);
    if s.tasks[t].phase == Calling {
      step := CallChain(t, true);
      assert |Next(s, step).markets[m].calls| == |s.markets[m].calls| + 1;
    } else {
      step := WriteBack(t);
      WriteBackChangesRow(s, t, m);
    }
  }

  lemma WriteBackChangesRow(s: Sys, t: TaskId, m: MarketId)
    requires m in s.markets && s.markets[m].state == Settling && t in s.tasks && s.tasks[t].market == m
    requires s.tasks[t].phase != Calling && TaskInv(s, t)
    ensures m in Next(s, WriteBack(t)).markets && Next(s, WriteBack(t)).markets[m] != s.markets[m]
  {
    var k' := NextWriteBack(s, t).markets[m];
    assert k'.state == Settled || k'.attempts[s.tasks[t].attempt].status == Failed;
  }

  // ------------------------------------------------------------------ the theorems

  ghost predicate SomeRunChanges(s: Sys, m: MarketId)
    requires m in s.markets
  {
    exists steps :: Quiet(s, steps, m) && m in Run(s, steps).markets && Run(s, steps).markets[m] != s.markets[m]
  }

  ghost predicate SomeRunClaims(s: Sys, m: MarketId)
    requires m in s.markets
  {
    exists steps :: Quiet(s, steps, m) && m in Run(s, steps).markets
                    && |Run(s, steps).markets[m].attempts| > |s.markets[m].attempts|
  }

  /**
   A SETTLING market can still be claimed by some run without an adjudication if and only
   if an attempt is left and its last attempt is unfinished, an instance holds it, or a
   settlement in progress may still fail.
   */
  lemma ClaimedAgainIff(s0: Sys, before: seq<Step>, m: MarketId)
    requires Initial(s0) && m in Run(s0, before).markets && Run(s0, before).markets[m].state == Settling
    ensures SomeRunClaims(Run(s0, before), m) <==> !Unclaimable(Run(s0, before), m)
  {
    InitialHasInv(s0);
    RunKeepsInv(s0, before);
    var s := Run(s0, before);
    if Unclaimable(s, m) {
      forall steps | Quiet(s, steps, m)
        ensures m in Run(s, steps).markets && |Run(s, steps).markets[m].attempts| == |s.markets[m].attempts|
      {
        NeverClaimedAgain(s, steps, m);
      }
    } else {
      var steps := Reclaimable(s, m);
      PlainStepsAreQuiet(s, steps, m);
    }
  }

  /**
   The row of a SETTLING market is changed by some run without an adjudication if and only
   if a settlement of it is in progress, or an attempt is left and its last attempt is
   unfinished or an instance holds it.
   */
  lemma StuckIff(s0: Sys, before: seq<Step>, m: MarketId)
    requires Initial(s0) && m in Run(s0, before).markets && Run(s0, before).markets[m].state == Settling
    ensures
      var s := Run(s0, before);
      SomeRunChanges(s, m) <==>
      !NoTasks(s, m) || (!Exhausted(s.markets[m]) && (LastResolving(s.markets[m]) || !Forgotten(s, m)))
  {
    InitialHasInv(s0);
    RunKeepsInv(s0, before);
    var s := Run(s0, before);
    if !NoTasks(s, m) {
      var t :| t in s.tasks && s.tasks[t].market == m;
      var step := TaskChangesRow(s, t, m);
      RunOne(s, step);
      PlainStepsAreQuiet(s, [step], m);
    } else if !Unclaimable(s, m) {
      var steps := Reclaimable(s, m);
      PlainStepsAreQuiet(s, steps, m);
    } else {
      forall steps | Quiet(s, steps, m)
        ensures m in Run(s, steps).markets && Run(s, steps).markets[m] == s.markets[m]
      {
        StuckForever(s, steps, m);
      }
    }
  }
}
