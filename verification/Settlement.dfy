/**
 Grace-period settlement of prediction markets.

 Rows (markets with their settlement attempts) live in the database and are
 changed by one transaction at a time. Any number of scheduler instances hold
 volatile memory: markets picked up by a sweep, a retry queue, and settlements in
 progress. The on-chain call of a settlement sits between two transactions, that of an
 adjudication between reading and saving the row, and an instance or a request can stop
 at any point. A proposal or a challenge is the step that saves it, with the clock of
 its reading; SettlementRequests takes reading and saving apart. `Next` gives every
 step of that system; a step that the code would reject or that is not possible leaves
 the system as it is.
 */
module Settlement {
  import opened Text
  import opened SettlementState

  const MAX_SETTLEMENTS_PER_TICK := 50
  const MAX_RETRY_ATTEMPTS := 5
  const INITIAL_BACKOFF_MS := 60000
  const STALE_SETTLING_THRESHOLD_MS := 300000

  type MarketId = string
  type InstanceId = nat
  type TaskId = nat
  type RequestId = nat

  datatype Result<+T> = Ok(value: T) | Err(error: UserError)

  datatype UserError =
    | NotFound | Forbidden | MarketCancelled | AlreadyResolved | IllegalTransition
    | NotEnded | InvalidOutcome | MissingTimestamp | WindowClosed | ChainFailed

  // -------------------------------------------------------------------- rows

  datatype AttemptStatus = Resolving | Resolved | Failed

  /** A settlement-attempt row. */
  datatype Attempt = Attempt(status: AttemptStatus, outcome: string, claimedAt: int)

  /** One on-chain resolution call; `attempt` is None when an admin made it. */
  datatype ChainCall = ChainCall(attempt: Option<nat>, outcome: string, ok: bool, at: int)

  /** A market row, its attempt rows in creation order and the log of its chain calls. */
  datatype Market = Market(
    options: seq<string>,
    endTime: int,
    cancelled: bool,
    resolved: bool,
    state: State,
    proposed: Option<string>,
    proposedAt: Option<int>,
    graceSeconds: nat,
    attemptCount: nat,
    resolvedOutcome: Option<string>,
    resolvedAt: Option<int>,
    attempts: seq<Attempt>,
    calls: seq<ChainCall>)

  /** A market that has not entered the settlement workflow. */
  predicate IsFresh(k: Market) {
    && k.state == Pending && !k.resolved
    && k.proposed == None && k.proposedAt == None && k.resolvedOutcome == None
    && k.attemptCount == 0 && k.attempts == [] && k.calls == []
  }

  /** End of the grace period, in milliseconds. */
  function Deadline(k: Market): int
    requires k.proposedAt.Some?
  {
    k.proposedAt.value + k.graceSeconds * 1000
  }

  // ------------------------------------------------------------ user requests

  function Propose(k: Market, outcome: string, grace: Option<nat>, authorized: bool, now: int): Result<Market> {
    if !authorized then Err(Forbidden)
    else if k.cancelled then Err(MarketCancelled)
    else if k.resolved then Err(AlreadyResolved)
    else if !CanTransition(k.state, Proposed) then Err(IllegalTransition)
    else if now < k.endTime then Err(NotEnded)
    else if outcome !in k.options then Err(InvalidOutcome)
    else Ok(k.(state := Proposed, proposed := Some(outcome), proposedAt := Some(now),
               graceSeconds := if grace.Some? then grace.value else k.graceSeconds))
  }

  function Challenge(k: Market, now: int): Result<Market> {
    if !CanTransition(k.state, Challenged) then Err(IllegalTransition)
    else if k.proposedAt.None? then Err(MissingTimestamp)
    else if now > Deadline(k) then Err(WindowClosed)
    else Ok(k.(state := Challenged))
  }

  /** The checks of an adjudication, made on the row as it was read before the chain is called. */
  predicate MayAdjudicate(k: Market, outcome: string, admin: bool) {
    admin && CanTransition(k.state, Settled) && outcome in k.options
  }

  function AdminCalled(k: Market, outcome: string, chainOk: bool, now: int): Market {
    k.(calls := k.calls + [ChainCall(None, outcome, chainOk, now)])
  }

  /** An adjudication saves the row it read, so the attempt counter goes back to `counter`. */
  function Saved(k: Market, outcome: string, counter: nat, now: int): Market {
    k.(state := Settled, proposed := Some(outcome), resolved := true, resolvedOutcome := Some(outcome),
       resolvedAt := Some(now), attemptCount := counter)
  }

  // -------------------------------------------------- scheduler transactions

  /** Eligibility as re-checked under the advisory lock. */
  predicate Claimable(k: Market) {
    && CanTransition(k.state, Settling)
    && k.proposed.Some? && k.proposed.value != ""
    && k.attemptCount < MAX_RETRY_ATTEMPTS
  }

  function Claimed(k: Market, now: int): Market
    requires Claimable(k)
  {
    k.(state := Settling, attemptCount := k.attemptCount + 1,
       attempts := k.attempts + [Attempt(Resolving, k.proposed.value, now)])
  }

  function WithCall(k: Market, attempt: nat, outcome: string, chainOk: bool, now: int): Market {
    k.(calls := k.calls + [ChainCall(Some(attempt), outcome, chainOk, now)])
  }

  function WithStatus(k: Market, attempt: nat, status: AttemptStatus): Market {
    if attempt < |k.attempts|
    then k.(attempts := k.attempts[attempt := k.attempts[attempt].(status := status)])
    else k
  }

  /** The finalizing transaction; it does not look at the row's state. */
  function Finalized(k: Market, attempt: nat, outcome: string, now: int): Market {
    WithStatus(k.(state := Settled, resolved := true, resolvedOutcome := Some(outcome),
                  resolvedAt := Some(now)), attempt, Resolved)
  }

  predicate IsDue(k: Market, now: int) {
    k.state == Proposed && k.proposedAt.Some? && Deadline(k) <= now
  }

  predicate IsStale(k: Market, now: int) {
    && k.state == Settling && k.attempts != []
    && k.attempts[|k.attempts| - 1].status == Resolving
    && k.attempts[|k.attempts| - 1].claimedAt <= now - STALE_SETTLING_THRESHOLD_MS
  }

  // ------------------------------------------------------------------ memory

  datatype RetryInfo = RetryInfo(attempts: nat, nextRetryAt: int)

  /** A market an instance is about to try; `viaRetry` when it came from the retry queue. */
  datatype WorkItem = WorkItem(market: MarketId, viaRetry: bool)

  datatype Instance = Instance(work: multiset<WorkItem>, queue: map<MarketId, RetryInfo>)

  datatype Phase = Calling | Succeeded | Rejected

  /** A settlement in progress: claimed, then called, then to be written back. */
  datatype Task = Task(instance: InstanceId, market: MarketId, attempt: nat, outcome: string,
                       viaRetry: bool, phase: Phase)

  /** An adjudication that passed its checks; `counter` is the attempt counter it read. */
  datatype Request = Request(market: MarketId, outcome: string, counter: nat, phase: Phase)

  datatype Sys = Sys(now: int, markets: map<MarketId, Market>, instances: map<InstanceId, Instance>,
                     tasks: map<TaskId, Task>, requests: map<RequestId, Request>)

  function NextRetry(now: int, attempts: nat): int {
    now + INITIAL_BACKOFF_MS * Power2(attempts)
  }

  function InstanceOf(s: Sys, i: InstanceId): Instance {
    if i in s.instances then s.instances[i] else Instance(multiset{}, map[])
  }

  function Items(picked: set<MarketId>, viaRetry: bool): multiset<WorkItem> {
    multiset(set m | m in picked :: WorkItem(m, viaRetry))
  }

  function AddWork(s: Sys, i: InstanceId, items: multiset<WorkItem>): Sys {
    var inst := InstanceOf(s, i);
    s.(instances := s.instances[i := inst.(work := inst.work + items)])
  }

  function WithQueue(s: Sys, i: InstanceId, queue: map<MarketId, RetryInfo>): Sys {
    s.(instances := s.instances[i := InstanceOf(s, i).(queue := queue)])
  }

  /** A retry that did not settle: one more attempt and a doubled back-off. */
  function Bumped(queue: map<MarketId, RetryInfo>, m: MarketId, now: int): map<MarketId, RetryInfo> {
    if m in queue
    then queue[m := RetryInfo(queue[m].attempts + 1, NextRetry(now, queue[m].attempts + 1))]
    else queue
  }

  function Enqueued(queue: map<MarketId, RetryInfo>, m: MarketId, now: int): map<MarketId, RetryInfo> {
    if m in queue then queue else queue[m := RetryInfo(0, NextRetry(now, 0))]
  }

  // ------------------------------------------------------------------- steps

  datatype Step =
    | Tick(ms: nat)
    | ProposeResolution(m: MarketId, outcome: string, grace: Option<nat>, authorized: bool, readAt: int)
    | ChallengeResolution(m: MarketId, readAt: int)
    | BeginAdjudication(r: RequestId, m: MarketId, outcome: string, admin: bool)
    | CallForAdjudication(r: RequestId, chainOk: bool)
    | SaveAdjudication(r: RequestId)
    | DropAdjudication(r: RequestId)
    | ReadDue(i: InstanceId, picked: set<MarketId>)
    | ReadStale(i: InstanceId, picked: set<MarketId>)
    | ReadRetries(i: InstanceId, picked: set<MarketId>)
    | RetryByAdmin(i: InstanceId, m: MarketId)
    | ClaimMarket(i: InstanceId, item: WorkItem, t: TaskId, gotLock: bool)
    | CallChain(t: TaskId, chainOk: bool)
    | WriteBack(t: TaskId)
    | Abandon(t: TaskId)
    | DropWork(i: InstanceId)
    | Crash(i: InstanceId)

  predicate IsAdminStep(step: Step) {
    step.BeginAdjudication? || step.CallForAdjudication? || step.SaveAdjudication? || step.DropAdjudication?
  }

  /** Everything but the passing of time and the requests of users. */
  predicate IsSchedulerStep(step: Step) {
    !step.Tick? && !step.ProposeResolution? && !step.ChallengeResolution? && !IsAdminStep(step)
  }

  function Next(s: Sys, step: Step): Sys {
    match step
    case Tick(ms) => s.(now := s.now + ms)
    case ProposeResolution(m, outcome, grace, authorized, readAt) =>
      if m in s.markets && readAt <= s.now
      then Stored(s, m, Propose(s.markets[m], outcome, grace, authorized, readAt)) else s
    case ChallengeResolution(m, readAt) =>
      if m in s.markets && ReadSince(s.markets[m], readAt, s.now)
      then Stored(s, m, Challenge(s.markets[m], readAt)) else s
    case BeginAdjudication(r, m, outcome, admin) =>
      if r !in s.requests && m in s.markets && MayAdjudicate(s.markets[m], outcome, admin)
      then NextBegin(s, r, m, outcome) else s
    case CallForAdjudication(r, chainOk) =>
      if IsOpen(s, r, Calling) then NextAdminCall(s, r, chainOk) else s
    case SaveAdjudication(r) =>
      if IsOpen(s, r, Succeeded) then NextSave(s, r) else s
    case DropAdjudication(r) => s.(requests := s.requests - {r})
    case ReadDue(i, picked) =>
      if |picked| <= MAX_SETTLEMENTS_PER_TICK
         && forall m :: m in picked ==> m in s.markets && IsDue(s.markets[m], s.now)
      then AddWork(s, i, Items(picked, false)) else s
    case ReadStale(i, picked) =>
      if |picked| <= MAX_SETTLEMENTS_PER_TICK
         && forall m :: m in picked ==> m in s.markets && IsStale(s.markets[m], s.now)
      then AddWork(s, i, Items(picked, false)) else s
    case ReadRetries(i, picked) =>
      var queue := InstanceOf(s, i).queue;
      if forall m :: m in picked ==>
        m in queue && queue[m].nextRetryAt <= s.now && queue[m].attempts < MAX_RETRY_ATTEMPTS
      then AddWork(s, i, Items(picked, true)) else s
    case RetryByAdmin(i, m) =>
      if m in InstanceOf(s, i).queue then AddWork(s, i, multiset{WorkItem(m, true)}) else s
    case ClaimMarket(i, item, t, gotLock) =>
      if item in InstanceOf(s, i).work && t !in s.tasks then NextClaim(s, i, item, t, gotLock) else s
    case CallChain(t, chainOk) =>
      if t in s.tasks && s.tasks[t].phase == Calling && s.tasks[t].market in s.markets
      then NextCall(s, t, chainOk) else s
    case WriteBack(t) =>
      if t in s.tasks && s.tasks[t].phase != Calling && s.tasks[t].market in s.markets
      then NextWriteBack(s, t) else s
    case Abandon(t) => s.(tasks := s.tasks - {t})
    case DropWork(i) => s.(instances := s.instances[i := InstanceOf(s, i).(work := multiset{})])
    case Crash(i) =>
      s.(instances := s.instances - {i},
         tasks := map t | t in s.tasks && s.tasks[t].instance != i :: s.tasks[t])
  }

  /** A request that read the row at `readAt` and saves it now read it after the proposal. */
  predicate ReadSince(k: Market, readAt: int, now: int) {
    readAt <= now && (k.proposedAt.Some? ==> k.proposedAt.value <= readAt)
  }

  predicate IsOpen(s: Sys, r: RequestId, phase: Phase) {
    r in s.requests && s.requests[r].phase == phase && s.requests[r].market in s.markets
  }

  function NextBegin(s: Sys, r: RequestId, m: MarketId, outcome: string): Sys
    requires m in s.markets
  {
    s.(requests := s.requests[r := Request(m, outcome, s.markets[m].attemptCount, Calling)])
  }

  /** A failed call ends the adjudication. */
  function NextAdminCall(s: Sys, r: RequestId, chainOk: bool): Sys
    requires IsOpen(s, r, Calling)
  {
    var q := s.requests[r];
    s.(markets := s.markets[q.market := AdminCalled(s.markets[q.market], q.outcome, chainOk, s.now)],
       requests := if chainOk then s.requests[r := q.(phase := Succeeded)] else s.requests - {r})
  }

  function NextSave(s: Sys, r: RequestId): Sys
    requires IsOpen(s, r, Succeeded)
  {
    var q := s.requests[r];
    s.(markets := s.markets[q.market := Saved(s.markets[q.market], q.outcome, q.counter, s.now)],
       requests := s.requests - {r})
  }

  function Stored(s: Sys, m: MarketId, r: Result<Market>): Sys {
    if r.Ok? then s.(markets := s.markets[m := r.value]) else s
  }

  function NextClaim(s: Sys, i: InstanceId, item: WorkItem, t: TaskId, gotLock: bool): Sys
    requires item in InstanceOf(s, i).work
  {
    var m := item.market;
    var inst := InstanceOf(s, i);
    var taken := s.(instances := s.instances[i := inst.(work := inst.work - multiset{item})]);
    if gotLock && m in s.markets && Claimable(s.markets[m]) then
      var k := s.markets[m];
      taken.(markets := s.markets[m := Claimed(k, s.now)],
             tasks := s.tasks[t := Task(i, m, |k.attempts|, k.proposed.value, item.viaRetry, Calling)])
    else if item.viaRetry then
      WithQueue(taken, i, if m in s.markets then Bumped(inst.queue, m, s.now) else inst.queue - {m})
    else taken
  }

  function NextCall(s: Sys, t: TaskId, chainOk: bool): Sys
    requires t in s.tasks && s.tasks[t].market in s.markets
  {
    var task := s.tasks[t];
    s.(markets := s.markets[task.market :=
                              WithCall(s.markets[task.market], task.attempt, task.outcome, chainOk, s.now)],
       tasks := s.tasks[t := task.(phase := if chainOk then Succeeded else Rejected)])
  }

  function NextWriteBack(s: Sys, t: TaskId): Sys
    requires t in s.tasks && s.tasks[t].market in s.markets
  {
    var task := s.tasks[t];
    var k := s.markets[task.market];
    var queue := InstanceOf(s, task.instance).queue;
    if task.phase == Succeeded then
      WithQueue(s.(markets := s.markets[task.market := Finalized(k, task.attempt, task.outcome, s.now)],
                   tasks := s.tasks - {t}),
                task.instance, if task.viaRetry then queue - {task.market} else queue)
    else
      var failed := Enqueued(queue, task.market, s.now);
      WithQueue(s.(markets := s.markets[task.market := WithStatus(k, task.attempt, Failed)],
                   tasks := s.tasks - {t}),
                task.instance, if task.viaRetry then Bumped(failed, task.market, s.now) else failed)
  }

  function Run(s: Sys, steps: seq<Step>): Sys
    decreases |steps|
  {
    if steps == [] then s else Run(Next(s, steps[0]), steps[1..])
  }

  /** Every market outside the workflow, nothing in memory. */
  predicate Initial(s: Sys) {
    && (forall m :: m in s.markets ==> IsFresh(s.markets[m]))
    && s.instances == map[] && s.tasks == map[] && s.requests == map[]
  }

  lemma {:induction false} RunAppend(s: Sys, a: seq<Step>, b: seq<Step>)
    ensures Run(s, a + b) == Run(Run(s, a), b)
    decreases |a|
  {
    if a == [] {
      assert a + b == b;
    } else {
      assert (a + b)[1..] == a[1..] + b;
      RunAppend(Next(s, a[0]), a[1..], b);
    }
  }

  lemma RunCons(s: Sys, step: Step, rest: seq<Step>)
    ensures Run(s, [step] + rest) == Run(Next(s, step), rest)
  {
    assert ([step] + rest)[1..] == rest;
  }
}
