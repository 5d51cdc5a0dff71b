/**
 Agreement of the chain and the database: every successful on-chain resolution of a
 market and its stored outcome name one option, under exact conditions on adjudications.
 */
module SettlementAgreement {
  import opened Text
  import opened SettlementState
  import opened Settlement
  import opened SettlementSafety
  import opened SettlementTheorems
  import opened SettlementRecovery

  // -------------------------------------------------------------------- agreement

  predicate NoSuccess(k: Market) {
    forall j :: 0 <= j < |k.calls| ==> !k.calls[j].ok
  }

  predicate CallsSay(k: Market, o: string) {
    forall j :: 0 <= j < |k.calls| && k.calls[j].ok ==> k.calls[j].outcome == o
  }

  /** All successful chain calls and the stored outcome, if there are any, name one member of the options. */
  ghost predicate Agreement(k: Market) {
    (NoSuccess(k) && k.resolvedOutcome == None) || exists o :: o in k.options && AgreesOn(k, o)
  }

  predicate AgreesOn(k: Market, o: string) {
    CallsSay(k, o) && (k.resolvedOutcome.Some? ==> k.resolvedOutcome.value == o)
  }

  predicate TasksSay(s: Sys, m: MarketId, o: string) {
    forall t :: t in s.tasks && s.tasks[t].market == m && s.tasks[t].phase != Rejected ==> s.tasks[t].outcome == o
  }

  predicate RequestsSay(s: Sys, m: MarketId, o: string) {
    forall r :: r in s.requests && s.requests[r].market == m ==> s.requests[r].outcome == o
  }

  /** Every success so far, and every settlement or adjudication still able to call or write, names `o`. */
  predicate AllSay(s: Sys, m: MarketId, o: string)
    requires m in s.markets
  {
    CallsSay(s.markets[m], o) && TasksSay(s, m, o) && RequestsSay(s, m, o)
  }

  /** Everyone names `o`, now and after every further claim. */
  predicate Holds(s: Sys, m: MarketId, o: string)
    requires m in s.markets
  {
    && AllSay(s, m, o)
    && (s.markets[m].state == Settling ==> s.markets[m].proposed == Some(o) || Unclaimable(s, m))
    && (s.markets[m].state == Settled ==> s.markets[m].resolvedOutcome == Some(o))
  }

  // ------------------------------------------------------------- what steps keep

  predicate Adjudicable(k: Market) {
    k.state in {Settling, Challenged, Settled}
  }

  lemma ClaimNames(s: Sys, i: InstanceId, item: WorkItem, t: TaskId, gotLock: bool, m: MarketId, o: string)
    requires m in s.markets && Adjudicable(s.markets[m]) && Holds(s, m, o)
    requires item in InstanceOf(s, i).work && t !in s.tasks
    ensures AllSay(NextClaim(s, i, item, t, gotLock), m, o)
    ensures NextClaim(s, i, item, t, gotLock).markets[m].proposed == s.markets[m].proposed
  {
    if s.markets[m].state == Settling && s.markets[m].proposed != Some(o) {
      ClaimAddsNone(s, i, item, t, gotLock, m);
    }
  }

  lemma CallNames(s: Sys, t: TaskId, chainOk: bool, m: MarketId, o: string)
    requires m in s.markets && AllSay(s, m, o)
    requires t in s.tasks && s.tasks[t].phase == Calling && s.tasks[t].market in s.markets
    ensures AllSay(NextCall(s, t, chainOk), m, o)
  {
  }

  lemma WriteBackNames(s: Sys, t: TaskId, m: MarketId, o: string)
    requires m in s.markets && AllSay(s, m, o)
    requires t in s.tasks && s.tasks[t].phase != Calling && s.tasks[t].market in s.markets
    ensures AllSay(NextWriteBack(s, t), m, o)
    ensures s.markets[m].state != Settled && NextWriteBack(s, t).markets[m].state == Settled ==>
              NextWriteBack(s, t).markets[m].resolvedOutcome == Some(o)
    ensures s.markets[m].resolvedOutcome == Some(o) ==> NextWriteBack(s, t).markets[m].resolvedOutcome == Some(o)
  {
  }

  lemma AdminCallNames(s: Sys, r: RequestId, chainOk: bool, m: MarketId, o: string)
    requires m in s.markets && AllSay(s, m, o) && IsOpen(s, r, Calling)
    ensures AllSay(NextAdminCall(s, r, chainOk), m, o)
  {
  }

  lemma SaveNames(s: Sys, r: RequestId, m: MarketId, o: string)
    requires m in s.markets && AllSay(s, m, o) && IsOpen(s, r, Succeeded)
    ensures AllSay(NextSave(s, r), m, o)
    ensures s.requests[r].market == m ==> NextSave(s, r).markets[m].resolvedOutcome == Some(o)
    ensures s.requests[r].market == m ==> NextSave(s, r).markets[m].state == Settled
    ensures s.requests[r].market != m ==> NextSave(s, r).markets[m] == s.markets[m]
  {
  }

  /** Beginning an adjudication of `m` is what these lemmas leave out. */
  predicate Begins(step: Step, m: MarketId) {
    step.BeginAdjudication? && step.m == m
  }

  lemma OthersSayTheSame(s: Sys, step: Step, m: MarketId, o: string)
    requires m in s.markets && Adjudicable(s.markets[m]) && AllSay(s, m, o) && !Begins(step, m)
    requires !step.ClaimMarket? && !step.CallChain? && !step.WriteBack?
    requires !step.CallForAdjudication? && !step.SaveAdjudication?
    ensures m in Next(s, step).markets && AllSay(Next(s, step), m, o)
    ensures Next(s, step).markets[m] == s.markets[m]
  {
  }

  /** The outcome part of `Holds` after a step. */
  predicate Names(k: Market, k': Market, o: string) {
    (k.proposed == Some(o) && k'.state == Settling ==> k'.proposed == Some(o))
    && (k'.state == Settled ==> k'.resolvedOutcome == Some(o))
  }

  lemma StepNames(s: Sys, step: Step, m: MarketId, o: string)
    requires m in s.markets && Adjudicable(s.markets[m]) && Holds(s, m, o) && !Begins(step, m)
    ensures m in Next(s, step).markets && AllSay(Next(s, step), m, o)
    ensures Names(s.markets[m], Next(s, step).markets[m], o)
  {
    if IsSchedulerStep(step) {
      SchedulerStepNames(s, step, m, o);
    } else if step.CallForAdjudication? {
      if IsOpen(s, step.r, Calling) {
        AdminCallNames(s, step.r, step.chainOk, m, o);
      }
    } else if step.SaveAdjudication? {
      if IsOpen(s, step.r, Succeeded) {
        SaveNames(s, step.r, m, o);
      }
    } else {
      OthersSayTheSame(s, step, m, o);
    }
  }

  lemma SchedulerStepNames(s: Sys, step: Step, m: MarketId, o: string)
    requires m in s.markets && Adjudicable(s.markets[m]) && Holds(s, m, o) && IsSchedulerStep(step)
    ensures m in Next(s, step).markets && AllSay(Next(s, step), m, o)
    ensures Names(s.markets[m], Next(s, step).markets[m], o)
  {
    if WritesRows(step) {
      if Next(s, step) != s {
        WriterNames(s, step, m, o);
      }
    } else {
      OthersSayTheSame(s, step, m, o);
    }
  }

  lemma WriterNames(s: Sys, step: Step, m: MarketId, o: string)
    requires m in s.markets && Adjudicable(s.markets[m]) && Holds(s, m, o) && WritesRows(step) && Next(s, step) != s
    ensures m in Next(s, step).markets && AllSay(Next(s, step), m, o)
    ensures Names(s.markets[m], Next(s, step).markets[m], o)
  {
    NextGoesOnward(s, step, m);
    match step
    case ClaimMarket(i, item, t, gotLock) => ClaimNames(s, i, item, t, gotLock, m, o);
    case CallChain(t, chainOk) =>
      CallNames(s, t, chainOk, m, o);
      CallKeepsProposal(s, t, chainOk, m);
    case WriteBack(t) => WriteBackNames(s, t, m, o);
  }

  lemma CallKeepsProposal(s: Sys, t: TaskId, chainOk: bool, m: MarketId)
    requires m in s.markets && t in s.tasks && s.tasks[t].phase == Calling && s.tasks[t].market in s.markets
    ensures
      var k' := NextCall(s, t, chainOk).markets[m];
      && k'.proposed == s.markets[m].proposed && k'.state == s.markets[m].state
      && k'.resolvedOutcome == s.markets[m].resolvedOutcome
  {
  }

  /** After an adjudication of `m` was saved the market is settled; other saves leave it alone. */
  lemma SavedOrUnclaimable(s: Sys, step: Step, m: MarketId)
    requires m in s.markets && s.markets[m].state == Settling && Unclaimable(s, m)
    ensures m in Next(s, step).markets
    ensures Next(s, step).markets[m].state == Settling ==> Unclaimable(Next(s, step), m)
  {
    if step.SaveAdjudication? && step.r in s.requests && s.requests[step.r].market == m {
    } else {
      UnclaimableStays(s, step, m);
    }
  }

  lemma HoldsStays(s: Sys, step: Step, m: MarketId, o: string)
    requires m in s.markets && Adjudicable(s.markets[m]) && Holds(s, m, o) && !Begins(step, m)
    ensures m in Next(s, step).markets && Adjudicable(Next(s, step).markets[m]) && Holds(Next(s, step), m, o)
  {
    NextGoesOnward(s, step, m);
    StepNames(s, step, m, o);
    if s.markets[m].state == Settling && s.markets[m].proposed != Some(o) {
      SavedOrUnclaimable(s, step, m);
    }
  }

  lemma BeginHolds(s: Sys, r: RequestId, m: MarketId, o: string, admin: bool)
    requires m in s.markets && Holds(s, m, o)
    ensures
      var s' := Next(s, BeginAdjudication(r, m, o, admin));
      m in s'.markets && Holds(s', m, o)
  {
  }

  // ------------------------------------------------------- before the first speaker

  /** Nobody has named or can name an outcome of `m`. */
  predicate Silent(s: Sys, m: MarketId)
    requires m in s.markets
  {
    NoTasks(s, m) && s.markets[m].calls == [] && forall r :: r in s.requests ==> s.requests[r].market != m
  }

  lemma SilentBeforeClaim(s: Sys, m: MarketId)
    requires Inv(s) && m in s.markets && s.markets[m].state in {Pending, Proposed}
    ensures Silent(s, m)
  {
    assert RowInv(s.markets[m]);
    NoTasksBeforeClaim(s, m);
    forall r | r in s.requests ensures s.requests[r].market != m {
      assert RequestInv(s, r);
    }
  }

  /** Whoever speaks first: the outcome proposed when the market is claimed, any outcome before that. */
  function FirstWord(k: Market): string {
    if k.proposed.Some? then k.proposed.value else ""
  }

  lemma FirstStepHolds(s: Sys, step: Step, m: MarketId)
    requires Inv(s) && m in s.markets && s.markets[m].state in {Pending, Proposed}
    ensures m in Next(s, step).markets && Holds(Next(s, step), m, FirstWord(Next(s, step).markets[m]))
    ensures Next(s, step).markets[m].state == Challenged ==> Next(s, step).markets[m].calls == []
  {
    SilentBeforeClaim(s, m);
    if step.ClaimMarket? {
      ClaimStepHolds(s, step, m);
    } else {
      StaysSilent(s, step, m);
      SilentHolds(Next(s, step), m, FirstWord(Next(s, step).markets[m]));
    }
  }

  lemma ClaimStepHolds(s: Sys, step: Step, m: MarketId)
    requires m in s.markets && s.markets[m].state in {Pending, Proposed} && Silent(s, m) && step.ClaimMarket?
    ensures m in Next(s, step).markets && Holds(Next(s, step), m, FirstWord(Next(s, step).markets[m]))
    ensures Next(s, step).markets[m].state != Challenged
  {
    if step.item in InstanceOf(s, step.i).work && step.t !in s.tasks {
      FirstClaimHolds(s, step.i, step.item, step.t, step.gotLock, m);
    } else {
      SilentHolds(s, m, FirstWord(s.markets[m]));
    }
  }

  lemma SilentHolds(s: Sys, m: MarketId, o: string)
    requires m in s.markets && Silent(s, m) && s.markets[m].state in {State.Pending, Proposed, Challenged}
    ensures Holds(s, m, o)
  {
  }

  lemma StaysSilent(s: Sys, step: Step, m: MarketId)
    requires m in s.markets && s.markets[m].state in {Pending, Proposed} && Silent(s, m) && !step.ClaimMarket?
    ensures m in Next(s, step).markets && Next(s, step).markets[m].state in {Pending, Proposed, Challenged}
    ensures Silent(Next(s, step), m)
  {
    if IsSchedulerStep(step) {
      SchedulerStaysSilent(s, step, m);
    }
  }

  lemma SchedulerStaysSilent(s: Sys, step: Step, m: MarketId)
    requires m in s.markets && Silent(s, m) && IsSchedulerStep(step) && !step.ClaimMarket?
    ensures m in Next(s, step).markets && Next(s, step).markets[m] == s.markets[m] && Silent(Next(s, step), m)
  {
  }

  lemma FirstClaimHolds(s: Sys, i: InstanceId, item: WorkItem, t: TaskId, gotLock: bool, m: MarketId)
    requires m in s.markets && s.markets[m].state in {Pending, Proposed} && Silent(s, m)
    requires item in InstanceOf(s, i).work && t !in s.tasks
    ensures
      var s' := NextClaim(s, i, item, t, gotLock);
      Holds(s', m, FirstWord(s'.markets[m])) && s'.markets[m].state in {Pending, Proposed, Settling}
  {
  }

  // ---------------------------------------------------------------------- safe runs

  predicate BeginAccepted(s: Sys, step: Step, m: MarketId) {
    Begins(step, m) && step.r !in s.requests && m in s.markets && MayAdjudicate(s.markets[m], step.outcome, step.admin)
  }

  /** An adjudication of `m` is begun only for the outcome that everyone names and will name. */
  predicate SafeStep(s: Sys, step: Step, m: MarketId) {
    BeginAccepted(s, step, m) ==> m in s.markets && Holds(s, m, step.outcome)
  }

  predicate SafeRun(s: Sys, steps: seq<Step>, m: MarketId)
    decreases |steps|
  {
    steps == [] || (SafeStep(s, steps[0], m) && SafeRun(Next(s, steps[0]), steps[1..], m))
  }

  ghost predicate SomeHolds(s: Sys, m: MarketId) {
    m in s.markets ==> exists o :: Holds(s, m, o)
  }

  lemma SafeStepHolds(s: Sys, step: Step, m: MarketId)
    requires Inv(s) && SomeHolds(s, m) && SafeStep(s, step, m)
    ensures SomeHolds(Next(s, step), m)
  {
    NextKeepsMarkets(s, step);
    if m in s.markets {
      if Begins(step, m) {
        SafeBeginHolds(s, step, m);
      } else if s.markets[m].state in {Pending, Proposed} {
        FirstStepHolds(s, step, m);
      } else {
        var o :| Holds(s, m, o);
        HoldsStays(s, step, m, o);
      }
    }
  }

  lemma SafeBeginHolds(s: Sys, step: Step, m: MarketId)
    requires m in s.markets && SomeHolds(s, m) && Begins(step, m) && SafeStep(s, step, m)
    ensures SomeHolds(Next(s, step), m)
  {
    if BeginAccepted(s, step, m) {
      BeginHolds(s, step.r, m, step.outcome, step.admin);
    } else {
      assert Next(s, step) == s;
    }
  }

  lemma {:induction false} SafeRunHolds(s: Sys, steps: seq<Step>, m: MarketId)
    requires Inv(s) && SomeHolds(s, m) && SafeRun(s, steps, m)
    ensures Inv(Run(s, steps)) && SomeHolds(Run(s, steps), m)
    decreases |steps|
  {
    if steps != [] {
      NextKeepsInv(s, steps[0]);
      SafeStepHolds(s, steps[0], m);
      SafeRunHolds(Next(s, steps[0]), steps[1..], m);
    }
  }

  lemma HoldsMeansAgreement(s: Sys, m: MarketId, o: string)
    requires Inv(s) && m in s.markets && Holds(s, m, o)
    ensures Agreement(s.markets[m])
  {
    var k := s.markets[m];
    assert RowInv(k);
    if k.resolvedOutcome.Some? {
      assert AgreesOn(k, o);
    } else if j :| 0 <= j < |k.calls| && k.calls[j].ok {
      assert k.calls[j].outcome == o;
      assert AgreesOn(k, o);
    }
  }

  lemma InitialHolds(s: Sys, m: MarketId)
    requires Initial(s)
    ensures SomeHolds(s, m)
  {
    if m in s.markets {
      assert IsFresh(s.markets[m]);
      assert Holds(s, m, "");
    }
  }

  /**
   In every interleaving of instances, crashes, retries and user requests in which
   adjudications are safe, all successful chain calls of a market and its stored
   outcome name one single option.
   */
  lemma SettlementAgreement(s0: Sys, steps: seq<Step>, m: MarketId)
    requires Initial(s0) && SafeRun(s0, steps, m) && m in Run(s0, steps).markets
    ensures Agreement(Run(s0, steps).markets[m])
  {
    InitialHasInv(s0);
    InitialHolds(s0, m);
    SafeRunHolds(s0, steps, m);
    var o :| Holds(Run(s0, steps), m, o);
    HoldsMeansAgreement(Run(s0, steps), m, o);
  }

  // ------------------------------------------------------------ the exact condition

  /** Agreement in every continuation in which no further adjudication of `m` is begun. */
  ghost predicate AgreesEverAfter(s: Sys, m: MarketId) {
    forall more :: NoneBegun(more, m) && m in Run(s, more).markets ==> Agreement(Run(s, more).markets[m])
  }

  predicate NoneBegun(steps: seq<Step>, m: MarketId) {
    forall j :: 0 <= j < |steps| ==> !Begins(steps[j], m)
  }

  lemma {:induction false} HoldsEverAfter(s: Sys, steps: seq<Step>, m: MarketId, o: string)
    requires Inv(s) && m in s.markets && Adjudicable(s.markets[m]) && Holds(s, m, o) && NoneBegun(steps, m)
    ensures m in Run(s, steps).markets && Agreement(Run(s, steps).markets[m])
    decreases |steps|
  {
    if steps == [] {
      HoldsMeansAgreement(s, m, o);
    } else {
      NextKeepsInv(s, steps[0]);
      HoldsStays(s, steps[0], m, o);
      HoldsEverAfter(Next(s, steps[0]), steps[1..], m, o);
    }
  }

  lemma TwoOutcomesDisagree(k: Market, i: nat, o: string)
    requires i < |k.calls| && k.calls[i].ok && k.calls[i].outcome == o
    requires || (exists j :: 0 <= j < |k.calls| && k.calls[j].ok && k.calls[j].outcome != o)
             || (k.resolvedOutcome.Some? && k.resolvedOutcome.value != o)
    ensures !Agreement(k)
  {
  }

  lemma {:induction false} DisagreesLater(s: Sys, steps: seq<Step>, m: MarketId)
    requires NoneBegun(steps, m) && m in Run(s, steps).markets && !AgreesEverAfter(Run(s, steps), m)
    ensures !AgreesEverAfter(s, m)
  {
    var more :| NoneBegun(more, m) && m in Run(Run(s, steps), more).markets
                && !Agreement(Run(Run(s, steps), more).markets[m]);
    RunAppend(s, steps, more);
    assert NoneBegun(steps + more, m);
  }

  lemma DisagreesNext(s: Sys, step: Step, m: MarketId)
    requires !Begins(step, m) && m in Next(s, step).markets && !Agreement(Next(s, step).markets[m])
    ensures !AgreesEverAfter(s, m)
  {
    RunOne(s, step);
  }

  predicate HasSaid(k: Market, o: string) {
    exists j :: 0 <= j < |k.calls| && k.calls[j].ok && k.calls[j].outcome == o
  }

  /** After a success for `o`, a settlement that names something else can still speak. */
  lemma TaskSpeaks(s: Sys, m: MarketId, o: string, t: TaskId)
    requires m in s.markets && HasSaid(s.markets[m], o)
    requires t in s.tasks && s.tasks[t].market == m && s.tasks[t].phase != Rejected && s.tasks[t].outcome != o
    ensures !AgreesEverAfter(s, m)
  {
    var k := s.markets[m];
    var task := s.tasks[t];
    var i :| 0 <= i < |k.calls| && k.calls[i].ok && k.calls[i].outcome == o;
    if task.phase == Calling {
      var k' := WithCall(k, task.attempt, task.outcome, true, s.now);
      assert k'.calls[i] == k.calls[i] && k'.calls[|k.calls|].ok && k'.calls[|k.calls|].outcome != o;
      TwoOutcomesDisagree(k', i, o);
      assert Next(s, CallChain(t, true)).markets[m] == k';
      DisagreesNext(s, CallChain(t, true), m);
    } else {
      var k' := Finalized(k, task.attempt, task.outcome, s.now);
      TwoOutcomesDisagree(k', i, o);
      assert Next(s, WriteBack(t)).markets[m] == k';
      DisagreesNext(s, WriteBack(t), m);
    }
  }

  lemma RequestSpeaks(s: Sys, m: MarketId, o: string, r: RequestId)
    requires m in s.markets && HasSaid(s.markets[m], o)
    requires r in s.requests && s.requests[r].market == m
    requires s.requests[r].phase != Rejected && s.requests[r].outcome != o
    ensures !AgreesEverAfter(s, m)
  {
    var k := s.markets[m];
    var q := s.requests[r];
    var i :| 0 <= i < |k.calls| && k.calls[i].ok && k.calls[i].outcome == o;
    if q.phase == Calling {
      var k' := AdminCalled(k, q.outcome, true, s.now);
      assert k'.calls[i] == k.calls[i] && k'.calls[|k.calls|].ok && k'.calls[|k.calls|].outcome != o;
      TwoOutcomesDisagree(k', i, o);
      assert Next(s, CallForAdjudication(r, true)).markets[m] == k';
      DisagreesNext(s, CallForAdjudication(r, true), m);
    } else {
      var k' := Saved(k, q.outcome, q.counter, s.now);
      TwoOutcomesDisagree(k', i, o);
      assert Next(s, SaveAdjudication(r)).markets[m] == k';
      DisagreesNext(s, SaveAdjudication(r), m);
    }
  }

  /** An open adjudication can make its call: from then on its outcome has been said. */
  lemma Says(s: Sys, r: RequestId, m: MarketId, o: string)
    requires m in s.markets && r in s.requests && s.requests[r] == Request(m, o, s.requests[r].counter, Calling)
    ensures
      var s' := Next(s, CallForAdjudication(r, true));
      && s' == NextAdminCall(s, r, true) && m in s'.markets && HasSaid(s'.markets[m], o)
  {
    var k' := NextAdminCall(s, r, true).markets[m];
    assert k'.calls[|s.markets[m].calls|].ok;
  }

  lemma DisagreesOnceSaid(s: Sys, r: RequestId, m: MarketId, o: string)
    requires Inv(s) && NoRejected(s) && m in s.markets && !AllSay(s, m, o)
    requires r in s.requests && s.requests[r] == Request(m, o, s.requests[r].counter, Calling)
    ensures !AgreesEverAfter(s, m)
  {
    var call := CallForAdjudication(r, true);
    Says(s, r, m, o);
    if !CallsSay(s.markets[m], o) {
      AdminContradicts(s, r, m, o);
    } else {
      AnotherSpeaks(s, r, m, o);
      RunOne(s, call);
      DisagreesLater(s, [call], m);
    }
  }

  /** After the adjudication's call another settlement or adjudication names something else. */
  lemma AnotherSpeaks(s: Sys, r: RequestId, m: MarketId, o: string)
    requires Inv(s) && NoRejected(s) && m in s.markets && !AllSay(s, m, o) && CallsSay(s.markets[m], o)
    requires r in s.requests && s.requests[r] == Request(m, o, s.requests[r].counter, Calling)
    ensures !AgreesEverAfter(Next(s, CallForAdjudication(r, true)), m)
  {
    var s' := NextAdminCall(s, r, true);
    Says(s, r, m, o);
    if !TasksSay(s, m, o) {
      var t :| t in s.tasks && s.tasks[t].market == m && s.tasks[t].phase != Rejected && s.tasks[t].outcome != o;
      TaskSpeaks(s', m, o, t);
    } else {
      var q :| q in s.requests && s.requests[q].market == m && s.requests[q].outcome != o;
      assert s'.requests[q] == s.requests[q];
      RequestSpeaks(s', m, o, q);
    }
  }

  lemma AdminContradicts(s: Sys, r: RequestId, m: MarketId, o: string)
    requires m in s.markets && !CallsSay(s.markets[m], o)
    requires r in s.requests && s.requests[r] == Request(m, o, s.requests[r].counter, Calling)
    ensures !AgreesEverAfter(s, m)
  {
    var call := CallForAdjudication(r, true);
    var k := s.markets[m];
    var k' := AdminCalled(k, o, true, s.now);
    assert Next(s, call).markets[m] == k';
    var j :| 0 <= j < |k.calls| && k.calls[j].ok && k.calls[j].outcome != o;
    assert k'.calls[j] == k.calls[j] && k'.calls[|k.calls|].ok;
    TwoOutcomesDisagree(k', |k.calls|, o);
    DisagreesNext(s, call, m);
  }

  /** No adjudication is ever in the state of a rejected one: it ends with its failed call. */
  predicate NoRejected(s: Sys) {
    forall r :: r in s.requests ==> s.requests[r].phase != Rejected
  }

  lemma NextKeepsNoRejected(s: Sys, step: Step)
    requires NoRejected(s)
    ensures NoRejected(Next(s, step))
  {
  }

  lemma {:induction false} RunKeepsNoRejected(s: Sys, steps: seq<Step>)
    requires NoRejected(s)
    ensures NoRejected(Run(s, steps))
    decreases |steps|
  {
    if steps != [] {
      NextKeepsNoRejected(s, steps[0]);
      RunKeepsNoRejected(Next(s, steps[0]), steps[1..]);
    }
  }

  /** A claimable market may be claimed for its proposal while the adjudication for `o` is open. */
  lemma DisagreesOnceClaimed(s: Sys, r: RequestId, m: MarketId, o: string)
    requires Inv(s) && m in s.markets && s.markets[m].state == Settling
    requires s.markets[m].proposed != Some(o) && !Unclaimable(s, m)
    requires r in s.requests && s.requests[r] == Request(m, o, s.requests[r].counter, Calling)
    ensures !AgreesEverAfter(s, m)
  {
    var steps := Reclaimable(s, m);
    var s1 := Run(s, steps);
    var p := s.markets[m].proposed.value;
    var t :| t in s1.tasks && s1.tasks[t].market == m && s1.tasks[t].phase == Calling && s1.tasks[t].outcome == p;
    var call := CallForAdjudication(r, true);
    Says(s1, r, m, o);
    TaskSpeaks(Next(s1, call), m, o, t);
    RunOne(s1, call);
    DisagreesLater(s1, [call], m);
    assert NoneBegun(steps, m);
    DisagreesLater(s, steps, m);
  }

  lemma BegunDisagrees(s: Sys, r: RequestId, m: MarketId, o: string)
    requires Inv(s) && NoRejected(s) && m in s.markets
    requires r in s.requests && s.requests[r] == Request(m, o, s.requests[r].counter, Calling)
    requires !AllSay(s, m, o)
             || (s.markets[m].state == Settling && s.markets[m].proposed != Some(o) && !Unclaimable(s, m))
    ensures !AgreesEverAfter(s, m)
  {
    if !AllSay(s, m, o) {
      DisagreesOnceSaid(s, r, m, o);
    } else {
      DisagreesOnceClaimed(s, r, m, o);
    }
  }

  lemma UnsafeBeginDisagrees(s: Sys, r: RequestId, m: MarketId, o: string)
    requires Inv(s) && NoRejected(s) && r !in s.requests && m in s.markets && MayAdjudicate(s.markets[m], o, true)
    requires !Holds(s, m, o)
    ensures !AgreesEverAfter(Next(s, BeginAdjudication(r, m, o, true)), m)
  {
    NextKeepsInv(s, BeginAdjudication(r, m, o, true));
    assert Next(s, BeginAdjudication(r, m, o, true)) == NextBegin(s, r, m, o);
    assert RowInv(s.markets[m]);
    StillUnsafe(s, r, m, o);
    BegunDisagrees(NextBegin(s, r, m, o), r, m, o);
  }

  lemma StillUnsafe(s: Sys, r: RequestId, m: MarketId, o: string)
    requires NoRejected(s) && r !in s.requests && m in s.markets && RowInv(s.markets[m])
    requires MayAdjudicate(s.markets[m], o, true) && !Holds(s, m, o)
    ensures
      var s' := NextBegin(s, r, m, o);
      && NoRejected(s')
      && (!AllSay(s', m, o)
          || (s'.markets[m].state == Settling && s'.markets[m].proposed != Some(o) && !Unclaimable(s', m)))
  {
    if !AllSay(s, m, o) {
      StillNotAll(s, r, m, o);
    } else {
      OnlySettlingIsOpen(s, m, o);
      assert Unclaimable(NextBegin(s, r, m, o), m) == Unclaimable(s, m);
    }
  }

  lemma OnlySettlingIsOpen(s: Sys, m: MarketId, o: string)
    requires m in s.markets && RowInv(s.markets[m]) && MayAdjudicate(s.markets[m], o, true)
    requires AllSay(s, m, o) && !Holds(s, m, o)
    ensures s.markets[m].state == Settling && s.markets[m].proposed != Some(o) && !Unclaimable(s, m)
  {
  }

  lemma StillNotAll(s: Sys, r: RequestId, m: MarketId, o: string)
    requires r !in s.requests && m in s.markets && !AllSay(s, m, o)
    ensures !AllSay(NextBegin(s, r, m, o), m, o)
  {
    var s' := NextBegin(s, r, m, o);
    if !RequestsSay(s, m, o) {
      var q :| q in s.requests && s.requests[q].market == m && s.requests[q].outcome != o;
      assert s'.requests[q] == s.requests[q];
    }
  }

  lemma HoldsAgrees(s: Sys, m: MarketId, o: string)
    requires Inv(s) && m in s.markets && Adjudicable(s.markets[m]) && Holds(s, m, o)
    ensures AgreesEverAfter(s, m)
  {
    forall more | NoneBegun(more, m) && m in Run(s, more).markets ensures Agreement(Run(s, more).markets[m]) {
      HoldsEverAfter(s, more, m, o);
    }
  }

  lemma SafeBeginAgrees(s: Sys, r: RequestId, m: MarketId, o: string)
    requires Inv(s) && m in s.markets && Adjudicable(s.markets[m]) && Holds(s, m, o)
    ensures AgreesEverAfter(Next(s, BeginAdjudication(r, m, o, true)), m)
  {
    var begin := BeginAdjudication(r, m, o, true);
    NextKeepsInv(s, begin);
    BeginHolds(s, r, m, o, true);
    BeginKeepsRows(s, r, m, o, true);
    HoldsAgrees(Next(s, begin), m, o);
  }

  lemma BeginKeepsRows(s: Sys, r: RequestId, m: MarketId, o: string, admin: bool)
    ensures
      var s' := Next(s, BeginAdjudication(r, m, o, admin));
      s'.markets == s.markets && s'.tasks == s.tasks && s'.instances == s.instances
  {
  }

  /**
   The exact condition: an accepted adjudication keeps agreement in every continuation
   without a further one if and only if every earlier success and every settlement or
   adjudication in progress names its outcome, and so does the proposal of a SETTLING
   market that can still be claimed.
   */
  lemma AdjudicationSafeIff(s0: Sys, steps: seq<Step>, r: RequestId, m: MarketId, o: string)
    requires Initial(s0) && m in Run(s0, steps).markets
    requires r !in Run(s0, steps).requests && MayAdjudicate(Run(s0, steps).markets[m], o, true)
    ensures
      var s := Run(s0, steps);
      AgreesEverAfter(Next(s, BeginAdjudication(r, m, o, true)), m) <==>
      AllSay(s, m, o) && (s.markets[m].state == Settling ==> s.markets[m].proposed == Some(o) || Unclaimable(s, m))
  {
    InitialHasInv(s0);
    RunKeepsInv(s0, steps);
    RunKeepsNoRejected(s0, steps);
    var s := Run(s0, steps);
    if Holds(s, m, o) {
      SafeBeginAgrees(s, r, m, o);
    } else {
      UnsafeBeginDisagrees(s, r, m, o);
    }
  }

  // ------------------------------------------------------- what an admin can check

  /** An open adjudication of `m` whose call succeeded for `o`. */
  predicate Unsaved(s: Sys, m: MarketId, o: string) {
    exists r :: r in s.requests && s.requests[r].market == m
                && s.requests[r].phase == Succeeded && s.requests[r].outcome == o
  }

  /** Every success so far is of an adjudication that is still open. */
  predicate Backed(s: Sys, m: MarketId)
    requires m in s.markets
  {
    forall j :: 0 <= j < |s.markets[m].calls| && s.markets[m].calls[j].ok ==>
      Unsaved(s, m, s.markets[m].calls[j].outcome)
  }

  /**
   A careful step: a SETTLING market is adjudicated for its proposed outcome only, a
   CHALLENGED one for the outcome of the adjudications of it that are open, if any, and
   no adjudication of a CHALLENGED market stops between its successful call and its save.
   */
  predicate Careful(s: Sys, step: Step, m: MarketId) {
    && (BeginAccepted(s, step, m) ==>
          m in s.markets &&
          if s.markets[m].state == Settling then s.markets[m].proposed == Some(step.outcome)
          else RequestsSay(s, m, step.outcome))
    && (step.DropAdjudication? && m in s.markets && s.markets[m].state == Challenged ==>
          !(step.r in s.requests && s.requests[step.r].market == m && s.requests[step.r].phase == Succeeded))
  }

  predicate CarefulRun(s: Sys, steps: seq<Step>, m: MarketId)
    decreases |steps|
  {
    steps == [] || (Careful(s, steps[0], m) && CarefulRun(Next(s, steps[0]), steps[1..], m))
  }

  predicate CarefulInv(s: Sys, m: MarketId) {
    m in s.markets ==>
      && (s.markets[m].state == Settling ==> s.markets[m].proposed.Some? && Holds(s, m, s.markets[m].proposed.value))
      && (s.markets[m].state == Challenged ==> Backed(s, m))
  }

  lemma CarefulIsSafe(s: Sys, step: Step, m: MarketId)
    requires Inv(s) && CarefulInv(s, m) && Careful(s, step, m)
    ensures SafeStep(s, step, m)
  {
    if BeginAccepted(s, step, m) && s.markets[m].state == Challenged {
      NoTasksBeforeClaim(s, m);
      forall j | 0 <= j < |s.markets[m].calls| && s.markets[m].calls[j].ok
        ensures s.markets[m].calls[j].outcome == step.outcome
      {
        assert Unsaved(s, m, s.markets[m].calls[j].outcome);
      }
    }
  }

  lemma SettlingStaysCareful(s: Sys, step: Step, m: MarketId)
    requires Inv(s) && m in s.markets && s.markets[m].state == Settling && CarefulInv(s, m) && Careful(s, step, m)
    ensures CarefulInv(Next(s, step), m)
  {
    var p := s.markets[m].proposed.value;
    if Begins(step, m) {
      if BeginAccepted(s, step, m) {
        BeginHolds(s, step.r, m, p, step.admin);
      }
    } else {
      NextGoesOnward(s, step, m);
      StepNames(s, step, m, p);
      HoldsStays(s, step, m, p);
    }
  }

  lemma StillPending(s: Sys, step: Step, m: MarketId, o: string)
    requires m in s.markets && s.markets[m].state == Challenged && Careful(s, step, m) && Unsaved(s, m, o)
    requires !(step.SaveAdjudication? && step.r in s.requests && s.requests[step.r].market == m)
    ensures Unsaved(Next(s, step), m, o)
  {
    var r :| r in s.requests && s.requests[r].market == m
             && s.requests[r].phase == Succeeded && s.requests[r].outcome == o;
    assert r in Next(s, step).requests && Next(s, step).requests[r] == s.requests[r];
  }

  lemma ChallengedStaysBacked(s: Sys, step: Step, m: MarketId)
    requires Inv(s) && m in s.markets && s.markets[m].state == Challenged && Backed(s, m) && Careful(s, step, m)
    ensures m in Next(s, step).markets && (Next(s, step).markets[m].state == Challenged ==> Backed(Next(s, step), m))
  {
    NextGoesOnward(s, step, m);
    var s' := Next(s, step);
    if step.SaveAdjudication? && step.r in s.requests && s.requests[step.r].market == m {
      if IsOpen(s, step.r, Succeeded) {
        assert s'.markets[m].state == Settled;
      }
    } else {
      NoTasksBeforeClaim(s, m);
      forall j | 0 <= j < |s'.markets[m].calls| && s'.markets[m].calls[j].ok
        ensures Unsaved(s', m, s'.markets[m].calls[j].outcome)
      {
        if step.CallForAdjudication? && IsOpen(s, step.r, Calling) && s.requests[step.r].market == m
           && j == |s.markets[m].calls| {
          assert s'.requests[step.r].phase == Succeeded;
        } else {
          CallKept(s, step, m, j);
          StillPending(s, step, m, s.markets[m].calls[j].outcome);
        }
      }
    }
  }

  /** Of a CHALLENGED row only an adjudication's call adds an entry to the log. */
  lemma CallKept(s: Sys, step: Step, m: MarketId, j: nat)
    requires m in s.markets && s.markets[m].state == Challenged && NoTasks(s, m) && m in Next(s, step).markets
    requires j < |Next(s, step).markets[m].calls|
    requires !(step.CallForAdjudication? && IsOpen(s, step.r, Calling) && s.requests[step.r].market == m
               && j == |s.markets[m].calls|)
    ensures j < |s.markets[m].calls| && Next(s, step).markets[m].calls[j] == s.markets[m].calls[j]
  {
    if !Adjudicates(s, step, m) {
      FrozenStep(s, step, m);
    }
  }

  lemma CarefulStep(s: Sys, step: Step, m: MarketId)
    requires Inv(s) && CarefulInv(s, m) && Careful(s, step, m)
    ensures CarefulInv(Next(s, step), m)
  {
    NextKeepsMarkets(s, step);
    if m in s.markets {
      match s.markets[m].state
      case Settling => SettlingStaysCareful(s, step, m);
      case Challenged =>
        NextGoesOnward(s, step, m);
        ChallengedStaysBacked(s, step, m);
      case Settled => NextGoesOnward(s, step, m);
      case _ =>
        FirstStepHolds(s, step, m);
        NextKeepsInv(s, step);
        assert RowInv(Next(s, step).markets[m]);
    }
  }

  lemma {:induction false} CarefulRunIsSafe(s: Sys, steps: seq<Step>, m: MarketId)
    requires Inv(s) && CarefulInv(s, m) && CarefulRun(s, steps, m)
    ensures SafeRun(s, steps, m) && Inv(Run(s, steps)) && CarefulInv(Run(s, steps), m)
    decreases |steps|
  {
    if steps != [] {
      CarefulIsSafe(s, steps[0], m);
      CarefulStep(s, steps[0], m);
      NextKeepsInv(s, steps[0]);
      CarefulRunIsSafe(Next(s, steps[0]), steps[1..], m);
    }
  }

  lemma InitialIsCareful(s: Sys, m: MarketId)
    requires Initial(s)
    ensures CarefulInv(s, m)
  {
    if m in s.markets {
      assert IsFresh(s.markets[m]);
    }
  }

  /**
   Agreement in every run in which admins are careful: CHALLENGED markets are adjudicated
   for one outcome at a time, and SETTLING ones for what was proposed.
   */
  lemma AgreementWhenCareful(s0: Sys, steps: seq<Step>, m: MarketId)
    requires Initial(s0) && CarefulRun(s0, steps, m) && m in Run(s0, steps).markets
    ensures Agreement(Run(s0, steps).markets[m])
  {
    InitialHasInv(s0);
    InitialIsCareful(s0, m);
    CarefulRunIsSafe(s0, steps, m);
    SettlementAgreement(s0, steps, m);
  }

  /** Adjudicating a SETTLING market for the outcome that was proposed is always safe. */
  lemma ProposedIsSafe(s0: Sys, steps: seq<Step>, r: RequestId, m: MarketId)
    requires Initial(s0) && CarefulRun(s0, steps, m)
    requires m in Run(s0, steps).markets && Run(s0, steps).markets[m].state == Settling
    requires r !in Run(s0, steps).requests
    ensures
      var s := Run(s0, steps);
      s.markets[m].proposed.Some?
      && AgreesEverAfter(Next(s, BeginAdjudication(r, m, s.markets[m].proposed.value, true)), m)
  {
    InitialHasInv(s0);
    InitialIsCareful(s0, m);
    CarefulRunIsSafe(s0, steps, m);
    var s := Run(s0, steps);
    assert RowInv(s.markets[m]);
    AdjudicationSafeIff(s0, steps, r, m, s.markets[m].proposed.value);
  }
}
