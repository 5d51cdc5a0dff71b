/** What the settlement workflow does not promise, with runs that show it. */
module SettlementLimits {
  import opened Text
  import opened SettlementState
  import opened Settlement
  import opened SettlementTheorems
  import opened SettlementRecovery
  import opened SettlementAgreement
  import opened SettlementOnce
  import opened SettlementRequests

  const M: MarketId := "m"
  const ROW := Market(["yes", "no"], 0, false, false, State.Pending, None, None, 0, 0, None, None, [], [])
  const START := Sys(0, map[M := ROW], map[], map[], map[])
  const ITEM := WorkItem(M, false)

  ghost predicate Reachable(s: Sys) {
    exists steps :: Run(START, steps) == s
  }

  lemma Reach(s: Sys, step: Step)
    requires Reachable(s)
    ensures Reachable(Next(s, step))
  {
    var steps :| Run(START, steps) == s;
    RunAppend(START, steps, [step] + []);
    RunCons(s, step, []);
    assert Run(START, steps + ([step] + [])) == Next(s, step);
  }

  lemma StartReachable()
    ensures Initial(START) && Reachable(START)
  {
    assert Run(START, []) == START;
  }

  // ------------------------------------------------------------- two instances

  /** "yes" is proposed with no grace period. */
  function Proposal(): Market {
    ROW.(state := Proposed, proposed := Some("yes"), proposedAt := Some(0))
  }

  function AfterProposal(): Sys {
    Sys(0, map[M := Proposal()], map[], map[], map[])
  }

  lemma ProposalReachable()
    ensures Reachable(AfterProposal())
  {
    StartReachable();
    assert "yes" == ROW.options[0];
    var propose := ProposeResolution(M, "yes", Some(0), true, 0);
    assert Next(START, propose) == AfterProposal();
    Reach(START, propose);
  }

  /** Both instances have read the market as due. */
  function AfterReading(): Sys {
    var work := Instance(multiset{ITEM}, map[]);
    AfterProposal().(instances := map[0 := work, 1 := work])
  }

  lemma OneItem()
    ensures Items({M}, false) == multiset{ITEM} && multiset{} + multiset{ITEM} == multiset{ITEM}
    ensures multiset{ITEM} - multiset{ITEM} == multiset{}
  {
    assert (set m | m in {M} :: WorkItem(m, false)) == {ITEM};
  }

  lemma ReadingReachable()
    ensures Reachable(AfterReading())
  {
    ProposalReachable();
    OneItem();
    var s := AfterProposal();
    var s1 := s.(instances := map[0 := Instance(multiset{ITEM}, map[])]);
    assert |{M}| <= MAX_SETTLEMENTS_PER_TICK;
    assert Next(s, ReadDue(0, {M})) == s1;
    Reach(s, ReadDue(0, {M}));
    assert Next(s1, ReadDue(1, {M})) == AfterReading();
    Reach(s1, ReadDue(1, {M}));
  }

  /** Instance 0 has claimed the market. */
  function FirstClaim(): Sys {
    Sys(0, map[M := Claimed(Proposal(), 0)],
        map[0 := Instance(multiset{}, map[]), 1 := Instance(multiset{ITEM}, map[])],
        map[0 := Task(0, M, 0, "yes", false, Calling)], map[])
  }

  lemma FirstClaimReachable()
    ensures Reachable(FirstClaim())
  {
    ReadingReachable();
    OneItem();
    assert Next(AfterReading(), ClaimMarket(0, ITEM, 0, true)) == FirstClaim();
    Reach(AfterReading(), ClaimMarket(0, ITEM, 0, true));
  }

  /** Instance 1, which read its list before that, has claimed it as well. */
  function SecondClaim(): Sys {
    var s := FirstClaim();
    Sys(0, map[M := Claimed(s.markets[M], 0)], map[0 := Instance(multiset{}, map[]), 1 := Instance(multiset{}, map[])],
        s.tasks[1 := Task(1, M, 1, "yes", false, Calling)], map[])
  }

  lemma SecondClaimReachable()
    ensures Reachable(SecondClaim())
  {
    FirstClaimReachable();
    OneItem();
    assert Next(FirstClaim(), ClaimMarket(1, ITEM, 1, true)) == SecondClaim();
    Reach(FirstClaim(), ClaimMarket(1, ITEM, 1, true));
  }

  /**
   Two instances can both resolve one market on chain: a claim of a market that is
   already SETTLING is legal, and the second instance read its list before the first
   one claimed. The comment that each eligible market is settled exactly once is
   therefore not a property of the code; ClaimResolvesOnceIff says when it holds.
   */
  lemma TwoInstancesBothResolve() returns (s: Sys)
    ensures Reachable(s) && M in s.markets && SchedulerCalls(s.markets[M].calls) == 2 && !AtMostOnce(s.markets[M])
  {
    SecondClaimReachable();
    var first := ChainCall(Some(0), "yes", true, 0);
    var second := ChainCall(Some(1), "yes", true, 0);
    var s1 := NextCall(SecondClaim(), 0, true);
    assert s1 == Next(SecondClaim(), CallChain(0, true)) && s1.markets[M].calls == [] + [first];
    Reach(SecondClaim(), CallChain(0, true));
    s := NextCall(s1, 1, true);
    assert s == Next(s1, CallChain(1, true)) && s.markets[M].calls == [first] + [second];
    Reach(s1, CallChain(1, true));
    CallsAppend([], first);
    CallsAppend([first], second);
    TwoSuccesses(s.markets[M], 0, 1);
  }

  // ------------------------------------------------------------- adjudications

  /**
   The adjudication guard lets SETTLING through, and then agreement can fail: an admin
   settles for "no" while an instance is about to resolve "yes" on chain.
   */
  lemma AdjudicatingSettlingDisagrees() returns (s: Sys)
    ensures Reachable(s) && M in s.markets && !Agreement(s.markets[M])
  {
    FirstClaimReachable();
    var begin := BeginAdjudication(0, M, "no", true);
    assert "no" == ROW.options[1];
    var s1 := NextBegin(FirstClaim(), 0, M, "no");
    assert Next(FirstClaim(), begin) == s1;
    Reach(FirstClaim(), begin);
    var s2 := NextAdminCall(s1, 0, true);
    assert Next(s1, CallForAdjudication(0, true)) == s2;
    Reach(s1, CallForAdjudication(0, true));
    s := NextCall(s2, 0, true);
    assert Next(s2, CallChain(0, true)) == s;
    Reach(s2, CallChain(0, true));
    YesIsNotNo();
    Contradiction(s.markets[M], None, Some(0), "no", "yes");
  }

  lemma Contradiction(k: Market, a: Option<nat>, b: Option<nat>, o: string, p: string)
    requires k.calls == [ChainCall(a, o, true, 0), ChainCall(b, p, true, 0)]
    requires o != p
    ensures !Agreement(k)
  {
    assert k.calls[1].ok && k.calls[1].outcome == p;
    TwoOutcomesDisagree(k, 0, o);
  }

  lemma YesIsNotNo()
    ensures "yes" != "no"
  {
    assert "yes"[0] != "no"[0];
  }

  /** The proposal was challenged in time. */
  function AfterChallenge(): Sys {
    Sys(0, map[M := Proposal().(state := Challenged)], map[], map[], map[])
  }

  lemma ChallengeReachable()
    ensures Reachable(AfterChallenge())
  {
    ProposalReachable();
    assert Next(AfterProposal(), ChallengeResolution(M, 0)) == AfterChallenge();
    Reach(AfterProposal(), ChallengeResolution(M, 0));
  }

  /**
   Two admins who read one CHALLENGED market before either saves it can settle it for
   different outcomes on chain.
   */
  lemma OverlappingAdjudicationsDisagree() returns (s: Sys)
    ensures Reachable(s) && M in s.markets && s.markets[M].state == Challenged && !Agreement(s.markets[M])
  {
    ChallengeReachable();
    var s0 := AfterChallenge();
    assert "yes" == ROW.options[0] && "no" == ROW.options[1];
    var s1 := NextBegin(s0, 0, M, "yes");
    assert Next(s0, BeginAdjudication(0, M, "yes", true)) == s1;
    Reach(s0, BeginAdjudication(0, M, "yes", true));
    var s2 := NextBegin(s1, 1, M, "no");
    assert Next(s1, BeginAdjudication(1, M, "no", true)) == s2;
    Reach(s1, BeginAdjudication(1, M, "no", true));
    var s3 := NextAdminCall(s2, 0, true);
    assert Next(s2, CallForAdjudication(0, true)) == s3;
    Reach(s2, CallForAdjudication(0, true));
    s := NextAdminCall(s3, 1, true);
    assert Next(s3, CallForAdjudication(1, true)) == s;
    Reach(s3, CallForAdjudication(1, true));
    YesIsNotNo();
    Contradiction(s.markets[M], None, None, "yes", "no");
  }

  /** The same without overlap, when the first adjudication stops between its call and its save. */
  lemma LostSaveDisagrees() returns (s: Sys)
    ensures Reachable(s) && M in s.markets && s.markets[M].state == Challenged && !Agreement(s.markets[M])
  {
    ChallengeReachable();
    var s0 := AfterChallenge();
    assert "yes" == ROW.options[0] && "no" == ROW.options[1];
    var s1 := NextBegin(s0, 0, M, "yes");
    assert Next(s0, BeginAdjudication(0, M, "yes", true)) == s1;
    Reach(s0, BeginAdjudication(0, M, "yes", true));
    var s2 := NextAdminCall(s1, 0, true);
    assert Next(s1, CallForAdjudication(0, true)) == s2;
    Reach(s1, CallForAdjudication(0, true));
    var s3 := s2.(requests := map[]);
    assert Next(s2, DropAdjudication(0)) == s3;
    Reach(s2, DropAdjudication(0));
    var s4 := NextBegin(s3, 0, M, "no");
    assert Next(s3, BeginAdjudication(0, M, "no", true)) == s4;
    Reach(s3, BeginAdjudication(0, M, "no", true));
    s := NextAdminCall(s4, 0, true);
    assert Next(s4, CallForAdjudication(0, true)) == s;
    Reach(s4, CallForAdjudication(0, true));
    YesIsNotNo();
    Contradiction(s.markets[M], None, None, "yes", "no");
  }

  /** A save that overlaps a claim puts the attempt counter back below the number of attempts. */
  lemma OverlappingSaveLosesCount() returns (s: Sys)
    ensures Reachable(s) && M in s.markets && s.markets[M].attemptCount == 1 && |s.markets[M].attempts| == 2
  {
    FirstClaimReachable();
    OneItem();
    var s0 := FirstClaim();
    assert "yes" == ROW.options[0];
    var s1 := NextBegin(s0, 0, M, "yes");
    assert Next(s0, BeginAdjudication(0, M, "yes", true)) == s1;
    Reach(s0, BeginAdjudication(0, M, "yes", true));
    var s2 := NextClaim(s1, 1, ITEM, 1, true);
    assert Next(s1, ClaimMarket(1, ITEM, 1, true)) == s2 && |s2.markets[M].attempts| == 2;
    Reach(s1, ClaimMarket(1, ITEM, 1, true));
    var s3 := NextAdminCall(s2, 0, true);
    assert Next(s2, CallForAdjudication(0, true)) == s3;
    Reach(s2, CallForAdjudication(0, true));
    s := NextSave(s3, 0);
    assert Next(s3, SaveAdjudication(0)) == s;
    Reach(s3, SaveAdjudication(0));
  }

  // -------------------------------------------------------------- late challenges

  ghost predicate WideReachable(w: Wide) {
    exists steps :: WideRun(Wide(START, map[]), steps) == w
  }

  lemma {:induction false} WideRunSnoc(w: Wide, steps: seq<WideStep>, step: WideStep)
    ensures WideRun(w, steps + [step]) == WideNext(WideRun(w, steps), step)
    decreases |steps|
  {
    if steps == [] {
      assert [step][1..] == [];
      assert [] + [step] == [step];
    } else {
      assert (steps + [step])[1..] == steps[1..] + [step];
      WideRunSnoc(WideNext(w, steps[0]), steps[1..], step);
    }
  }

  lemma WideReach(w: Wide, step: WideStep)
    requires WideReachable(w)
    ensures WideReachable(WideNext(w, step))
  {
    var steps :| WideRun(Wide(START, map[]), steps) == w;
    WideRunSnoc(Wide(START, map[]), steps, step);
  }

  function ChallengeRead(): Reading {
    Reading(M, Proposal(), Challenging, 0)
  }

  /** A challenge was read and checked, and then the market was claimed. */
  function ClaimedMeanwhile(): Sys {
    Sys(0, map[M := Claimed(Proposal(), 0)], map[0 := Instance(multiset{}, map[])],
        map[0 := Task(0, M, 0, "yes", false, Calling)], map[])
  }

  lemma ChallengeReadReachable()
    ensures WideReachable(Wide(AfterProposal(), map[0 := ChallengeRead()]))
  {
    assert "yes" == ROW.options[0];
    var propose := ProposeResolution(M, "yes", Some(0), true, 0);
    assert WideRun(Wide(START, map[]), []) == Wide(START, map[]);
    assert Next(START, propose) == AfterProposal();
    WideReach(Wide(START, map[]), Basic(propose));
    assert WideNext(Wide(AfterProposal(), map[]), Read(0, M, Challenging)).readings == map[0 := ChallengeRead()];
    WideReach(Wide(AfterProposal(), map[]), Read(0, M, Challenging));
  }

  lemma BasicReach(s: Sys, step: Step, s': Sys)
    requires WideReachable(Wide(s, map[0 := ChallengeRead()])) && Next(s, step) == s'
    ensures WideReachable(Wide(s', map[0 := ChallengeRead()]))
  {
    WideReach(Wide(s, map[0 := ChallengeRead()]), Basic(step));
  }

  lemma ClaimedMeanwhileReachable()
    ensures WideReachable(Wide(ClaimedMeanwhile(), map[0 := ChallengeRead()]))
  {
    ChallengeReadReachable();
    OneItem();
    var s := AfterProposal().(instances := map[0 := Instance(multiset{ITEM}, map[])]);
    assert |{M}| <= MAX_SETTLEMENTS_PER_TICK;
    BasicReach(AfterProposal(), ReadDue(0, {M}), s);
    BasicReach(s, ClaimMarket(0, ITEM, 0, true), ClaimedMeanwhile());
  }

  /**
   A challenge whose reading and saving straddle a settlement makes a settled market
   CHALLENGED and unresolved again, although the chain has resolved it.
   */
  lemma LateChallengeReopens() returns (w: Wide)
    ensures WideReachable(w) && CanSave(w, 0) && !InTime(w, 0)
    ensures M in w.sys.markets && w.sys.markets[M].state == Settled
    ensures
      var s' := WideNext(w, Save(0)).sys;
      && M in s'.markets && s'.markets[M].state == Challenged && !s'.markets[M].resolved
      && |s'.markets[M].calls| == 1 && IsSuccess(s'.markets[M].calls[0])
  {
    ClaimedMeanwhileReachable();
    var s1 := NextCall(ClaimedMeanwhile(), 0, true);
    BasicReach(ClaimedMeanwhile(), CallChain(0, true), s1);
    var s2 := NextWriteBack(s1, 0);
    BasicReach(s1, WriteBack(0), s2);
    w := Wide(s2, map[0 := ChallengeRead()]);
    assert s2.markets[M].calls == [ChainCall(Some(0), "yes", true, 0)];
  }

  // ---------------------------------------------------------------- stuck markets

  /** The claimed settlement failed on chain. */
  function AfterRejection(): Sys {
    var s := FirstClaim();
    s.(markets := map[M := s.markets[M].(calls := [ChainCall(Some(0), "yes", false, 0)])],
       tasks := map[0 := Task(0, M, 0, "yes", false, Rejected)])
  }

  lemma RejectionReachable()
    ensures Reachable(AfterRejection())
  {
    FirstClaimReachable();
    var s := NextCall(FirstClaim(), 0, false);
    assert Next(FirstClaim(), CallChain(0, false)) == s;
    assert s.markets[M].calls == [ChainCall(Some(0), "yes", false, 0)];
    Reach(FirstClaim(), CallChain(0, false));
  }

  /** The failure was written back. */
  function AfterFailure(): Sys {
    var k := AfterRejection().markets[M];
    Sys(0, map[M := k.(attempts := [Attempt(Failed, "yes", 0)])],
        map[0 := Instance(multiset{}, map[M := RetryInfo(0, NextRetry(0, 0))]), 1 := Instance(multiset{ITEM}, map[])],
        map[], map[])
  }

  lemma FailureReachable()
    ensures Reachable(AfterFailure())
  {
    RejectionReachable();
    var s := NextWriteBack(AfterRejection(), 0);
    assert Next(AfterRejection(), WriteBack(0)) == s;
    assert s.markets[M].attempts == [Attempt(Failed, "yes", 0)];
    assert s.tasks == map[] && s.instances == AfterFailure().instances;
    Reach(AfterRejection(), WriteBack(0));
  }

  /** One failed call and the stop of the instances leave a market stuck with attempts to spare. */
  lemma StuckAfterFailure() returns (s: Sys)
    ensures Reachable(s) && M in s.markets && s.markets[M].state == Settling && Stuck(s, M) && !Exhausted(s.markets[M])
  {
    FailureReachable();
    var s1 := AfterFailure().(instances := map[1 := Instance(multiset{ITEM}, map[])]);
    assert Next(AfterFailure(), Crash(0)) == s1;
    Reach(AfterFailure(), Crash(0));
    s := s1.(instances := map[]);
    assert Next(s1, Crash(1)) == s;
    Reach(s1, Crash(1));
  }

  /** Claimed `n` times, each time by an instance that stopped before calling the chain. */
  predicate LostClaims(s: Sys, n: nat) {
    && s.markets.Keys == {M} && s.instances == map[] && s.tasks == map[] && s.requests == map[]
    && s.markets[M].state == Settling && s.markets[M].proposed == Some("yes")
    && s.markets[M].attemptCount == |s.markets[M].attempts| == n
    && LastResolving(s.markets[M]) && s.markets[M].attempts[n - 1].claimedAt <= s.now
  }

  lemma FirstLostClaim() returns (s: Sys)
    ensures Reachable(s) && LostClaims(s, 1)
  {
    FirstClaimReachable();
    var s0 := FirstClaim();
    var s1 := s0.(instances := map[1 := Instance(multiset{ITEM}, map[])], tasks := map[]);
    assert Next(s0, Crash(0)) == s1;
    Reach(s0, Crash(0));
    s := s1.(instances := map[]);
    assert Next(s1, Crash(1)) == s;
    Reach(s1, Crash(1));
  }

  /** Once it is stale, recovery reads the market again. */
  lemma LostClaimIsRead(s: Sys, n: nat) returns (s': Sys)
    requires Reachable(s) && LostClaims(s, n)
    ensures Reachable(s')
    ensures s' == s.(now := s.now + STALE_SETTLING_THRESHOLD_MS, instances := map[0 := Instance(multiset{ITEM}, map[])])
  {
    OneItem();
    var s1 := s.(now := s.now + STALE_SETTLING_THRESHOLD_MS);
    assert Next(s, Tick(STALE_SETTLING_THRESHOLD_MS)) == s1;
    Reach(s, Tick(STALE_SETTLING_THRESHOLD_MS));
    s' := s1.(instances := map[0 := Instance(multiset{ITEM}, map[])]);
    assert |{M}| <= MAX_SETTLEMENTS_PER_TICK && IsStale(s1.markets[M], s1.now);
    assert Next(s1, ReadStale(0, {M})) == s';
    Reach(s1, ReadStale(0, {M}));
  }

  /** Stale recovery claims the market again and stops. */
  lemma NextLostClaim(s: Sys, n: nat) returns (s': Sys)
    requires Reachable(s) && LostClaims(s, n) && n < MAX_RETRY_ATTEMPTS
    ensures Reachable(s') && LostClaims(s', n + 1)
  {
    OneItem();
    var s1 := LostClaimIsRead(s, n);
    var s2 := NextClaim(s1, 0, ITEM, 0, true);
    assert "yes"[0] == 'y';
    assert Claimable(s1.markets[M]);
    assert Next(s1, ClaimMarket(0, ITEM, 0, true)) == s2;
    assert s2.markets == map[M := Claimed(s1.markets[M], s1.now)];
    assert s2.instances.Keys == {0} && s2.tasks.Keys == {0};
    Reach(s1, ClaimMarket(0, ITEM, 0, true));
    s' := s2.(instances := map[], tasks := map[]);
    InstanceStops(s2);
    Reach(s2, Crash(0));
  }

  lemma InstanceStops(s: Sys)
    requires s.instances.Keys == {0} && s.tasks.Keys == {0} && s.tasks[0].instance == 0
    ensures Next(s, Crash(0)) == s.(instances := map[], tasks := map[])
  {
    assert s.instances - {0} == map[];
  }

  lemma {:induction false} LostClaimsReachable(n: nat) returns (s: Sys)
    requires 1 <= n <= MAX_RETRY_ATTEMPTS
    ensures Reachable(s) && LostClaims(s, n)
  {
    if n == 1 {
      s := FirstLostClaim();
    } else {
      var before := LostClaimsReachable(n - 1);
      s := NextLostClaim(before, n - 1);
    }
  }

  /** Five claims that were each lost in a crash leave a market stuck although its last attempt is unfinished. */
  lemma StuckWhenExhausted() returns (s: Sys)
    ensures Reachable(s) && M in s.markets && s.markets[M].state == Settling && Stuck(s, M)
    ensures LastResolving(s.markets[M]) && Exhausted(s.markets[M])
  {
    s := LostClaimsReachable(MAX_RETRY_ATTEMPTS);
  }
}
