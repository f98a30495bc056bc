/** How many failures an event survives and how many processing steps empty the queue, with one worker. */
module Drain {
  import opened Clock
  import opened Horizon
  import opened Leases
  import opened Machine
  import opened Models
  import opened Safety
  import opened Sums
  import opened Tables
  import opened Text

  predicate OneWorkerRun(c: Config, s: State, actions: seq<Action>)
    ensures OneWorkerRun(c, s, actions) ==> Run(c, s, actions)
    decreases |actions|
  {
    actions == [] || (Enabled(c, s, actions[0]) && ByOneWorker(actions[0]) && OneWorkerRun(c, Next(c, s, actions[0]), actions[1..]))
  }

  // ---- failures ----

  /** Failures recorded since an event was last inserted or replayed never exceed what its retry count admits. */
  predicate FailuresOk(c: Config, s: State) {
    && (forall id | id in s.db.pending :: FailuresOf(s, id) <= s.db.pending[id].retryCount)
    && (PhaseOf(s, 0).Holding? ==> FailuresOf(s, HeldId(s, 0)) <= PhaseOf(s, 0).q.retryCount)
    && (forall id | id in s.hist.failures :: s.hist.failures[id] <= c.maxRetries + 1)
  }

  lemma FailKeepsFailuresOk(c: Config, s: State, reason: string)
    requires Inv(c, s) && HoldsPending(s) && FailuresOk(c, s) && PhaseOf(s, 0).Holding? && PhaseOf(s, 0).q.retryCount >= 0
    ensures FailuresOk(c, AfterFail(c, s, 0, reason))
  {
    hide RowsOk, Disjoint, WorkersOk, Trim, Reschedule, MoveToDead, Unix, FailureText;
    HeldIsOk(c, s, 0);
  }

  lemma RateLimitKeepsFailuresOk(c: Config, s: State)
    requires Inv(c, s) && FailuresOk(c, s) && PhaseOf(s, 0).Holding?
    ensures FailuresOk(c, AfterRateLimit(s, 0))
  {
    hide RowsOk, Disjoint, WorkersOk, Trim, Reschedule, Unix;
    HeldIsOk(c, s, 0);
  }

  lemma ProduceKeepsFailuresOk(c: Config, s: State, event: MediaEvent)
    requires HoldsPending(s) && FailuresOk(c, s)
    ensures FailuresOk(c, AfterProduce(c, s, event))
  {
    hide Enqueue, Prepared, Unix;
  }

  lemma ReplayKeepsFailuresOk(c: Config, s: State, letter: nat, targetPlatform: string, targetId: string)
    requires Inv(c, s) && FailuresOk(c, s)
    ensures FailuresOk(c, AfterReplay(s, letter, targetPlatform, targetId))
  {
    hide RowsOk, Disjoint, Replay, Replayable, Unix;
    if PhaseOf(s, 0).Holding? { HeldIsOk(c, s, 0); }
  }

  lemma ClaimKeepsFailuresOk(c: Config, s: State, id: string)
    requires Inv(c, s) && FailuresOk(c, s) && Enabled(c, s, ClaimNext(0, id))
    ensures FailuresOk(c, Next(c, s, ClaimNext(0, id)))
  {
    hide RowsOk, Disjoint, WorkersOk, ClaimedEvent, NotAfter, LeaseEnd, Unix;
    ClaimedIsOk(c, s.db, id);
  }

  lemma OtherStepKeepsFailuresOk(c: Config, s: State, a: Action)
    requires FailuresOk(c, s) && Enabled(c, s, a) && ByOneWorker(a)
    requires !a.Produce? && !a.ClaimNext? && !a.Fail? && !a.RateLimited? && !a.ReplayLetter?
    ensures FailuresOk(c, Next(c, s, a))
  {
    hide Trim, Ack, AfterFail, AfterProduce, AfterRateLimit, AfterReplay, Buffer, DueDigest, Unix, ClaimedEvent, Claim, NotAfter;
  }

  lemma StepKeepsFailuresOk(c: Config, s: State, a: Action)
    requires Inv(c, s) && HoldsPending(s) && FailuresOk(c, s) && Enabled(c, s, a) && ByOneWorker(a)
    ensures FailuresOk(c, Next(c, s, a))
  {
    hide Inv, HoldsPending, FailuresOk, AfterAck, AfterBuffer, AfterFail, AfterProduce, AfterRateLimit, AfterReplay,
         Claim, DueDigest, Unix, NotAfter;
    match a
    case Produce(event) => ProduceKeepsFailuresOk(c, s, event);
    case ClaimNext(_, id) => ClaimKeepsFailuresOk(c, s, id);
    case Fail(_, reason) => FailKeepsFailuresOk(c, s, reason);
    case RateLimited(_) => RateLimitKeepsFailuresOk(c, s);
    case ReplayLetter(letter, tp, tid) => ReplayKeepsFailuresOk(c, s, letter, tp, tid);
    case _ => OtherStepKeepsFailuresOk(c, s, a);
  }

  lemma {:induction false} RunKeepsFailuresOk(c: Config, s: State, actions: seq<Action>)
    requires Inv(c, s) && HoldsPending(s) && FailuresOk(c, s) && OneWorkerRun(c, s, actions)
    ensures var t := After(c, s, actions); Inv(c, t) && HoldsPending(t) && FailuresOk(c, t)
    decreases |actions|
  {
    hide Inv, HoldsPending, FailuresOk, Enabled, Next, ByOneWorker;
    if actions != [] {
      StepKeepsInv(c, s, actions[0]);
      StepKeepsHoldsPending(c, s, actions[0]);
      StepKeepsFailuresOk(c, s, actions[0]);
      RunKeepsFailuresOk(c, Next(c, s, actions[0]), actions[1..]);
    }
  }

  /** In every run of one worker at most maxRetries + 1 failures are recorded between an event's insertion or replay and
      its dead letter. */
  lemma FailuresAreBounded(c: Config, start: nat, actions: seq<Action>, id: string)
    requires OneWorkerRun(c, Start(start), actions)
    ensures var t := After(c, Start(start), actions);
            && FailuresOf(t, id) <= c.maxRetries + 1
            && (id in t.db.pending ==> FailuresOf(t, id) <= t.db.pending[id].retryCount <= c.maxRetries)
            && HoldsPending(t)
  {
    RunKeepsFailuresOk(c, Start(start), actions);
  }

  // ---- drain ----

  /** Failures each pending event has left, plus one for its dead letter. */
  function Left(c: Config, pending: map<string, PendingRow>): map<string, int> {
    map id | id in pending :: c.maxRetries + 1 - pending[id].retryCount
  }

  ghost function Budget(c: Config, db: Db): int {
    Sum(Left(c, db.pending))
  }

  /** What the worker holds is the row as it is stored. */
  predicate HoldsCurrent(s: State) {
    PhaseOf(s, 0).Holding? ==> HeldId(s, 0) in s.db.pending && s.db.pending[HeldId(s, 0)].retryCount == PhaseOf(s, 0).q.retryCount
  }

  /** Steps that end the processing of an event, other than by rate limiting or a crash. */
  predicate Completes(a: Action) {
    a.Filter? || a.AckHeld? || a.Fail?
  }

  predicate Arrives(a: Action) {
    a.Produce? || a.ReplayLetter?
  }

  lemma RemovedFromBudget(c: Config, db: Db, after: Db, id: string)
    requires id in db.pending && db.pending[id].retryCount <= c.maxRetries && after.pending == db.pending - {id}
    ensures Budget(c, after) <= Budget(c, db) - 1
  {
    SumSplit(Left(c, db.pending), id);
    assert Left(c, after.pending) == Left(c, db.pending) - {id};
  }

  lemma RetriedInBudget(c: Config, db: Db, after: Db, id: string)
    requires id in db.pending && after.pending.Keys == db.pending.Keys
    requires forall k | k in db.pending && k != id :: after.pending[k] == db.pending[k]
    ensures Budget(c, after) == Budget(c, db) - (after.pending[id].retryCount - db.pending[id].retryCount)
  {
    SumUpdate(Left(c, db.pending), id, c.maxRetries + 1 - after.pending[id].retryCount);
    assert Left(c, after.pending) == Left(c, db.pending)[id := c.maxRetries + 1 - after.pending[id].retryCount];
  }

  lemma FailDrains(c: Config, s: State, reason: string)
    requires Inv(c, s) && HoldsCurrent(s) && PhaseOf(s, 0).Holding? && PhaseOf(s, 0).q.retryCount >= 0
    ensures Budget(c, AfterFail(c, s, 0, reason).db) <= Budget(c, s.db) - 1
  {
    hide WorkersOk, Disjoint, Trim, Reschedule, MoveToDead, Unix, FailureText, Budget, RowOk;
    HeldIsOk(c, s, 0);
    var q, id, db := PhaseOf(s, 0).q, HeldId(s, 0), AfterFail(c, s, 0, reason).db;
    if q.retryCount + 1 > c.maxRetries {
      RemovedFromBudget(c, s.db, db, id);
    } else {
      RetriedInBudget(c, s.db, db, id);
    }
  }

  lemma AckDrains(c: Config, s: State)
    requires Inv(c, s) && HoldsPending(s) && !PhaseOf(s, 0).Idle?
    ensures Budget(c, AfterAck(s, 0).db) <= Budget(c, s.db) - 1
  {
    hide WorkersOk, Disjoint, Trim, Unix, Budget, RowOk;
    HeldIsOk(c, s, 0);
    RemovedFromBudget(c, s.db, AfterAck(s, 0).db, HeldId(s, 0));
  }

  lemma RateLimitKeepsBudget(c: Config, s: State)
    requires Inv(c, s) && HoldsCurrent(s) && PhaseOf(s, 0).Holding?
    ensures Budget(c, AfterRateLimit(s, 0).db) == Budget(c, s.db)
  {
    hide WorkersOk, Disjoint, Trim, Reschedule, Unix, Budget, RowOk;
    HeldIsOk(c, s, 0);
    RetriedInBudget(c, s.db, AfterRateLimit(s, 0).db, HeldId(s, 0));
  }

  lemma ClaimKeepsBudget(c: Config, s: State, id: string)
    requires id in s.db.pending
    ensures Budget(c, Claim(s.db, id, s.now, c.lease)) == Budget(c, s.db)
  {
    hide LeaseEnd, Budget;
    RetriedInBudget(c, s.db, Claim(s.db, id, s.now, c.lease), id);
  }

  lemma StepDrains(c: Config, s: State, a: Action)
    requires Inv(c, s) && HoldsPending(s) && HoldsCurrent(s) && Enabled(c, s, a) && ByOneWorker(a) && !Arrives(a)
    ensures Budget(c, Next(c, s, a).db) <= Budget(c, s.db) - if Completes(a) then 1 else 0
  {
    hide Inv, HoldsPending, HoldsCurrent, Budget, Enqueue, Ack, Reschedule, DeliveryFailure, Replay, Buffer, DueDigest,
         Unix, ClaimedEvent, NotAfter;
    var next := Next(c, s, a);
    match a
    case ClaimNext(_, id) => ClaimKeepsBudget(c, s, id);
    case Filter(_) => AckDrains(c, s);
    case AckHeld(_) => AckDrains(c, s);
    case Fail(_, reason) => FailDrains(c, s, reason);
    case RateLimited(_) => RateLimitKeepsBudget(c, s);
    case _ =>
      if next.db.pending == s.db.pending { SamePendingSameBudget(c, s.db, next.db); }
  }

  lemma SamePendingSameBudget(c: Config, db: Db, after: Db)
    requires after.pending == db.pending
    ensures Budget(c, after) == Budget(c, db)
  {
  }

  lemma StepKeepsHoldsCurrent(c: Config, s: State, a: Action)
    requires Inv(c, s) && HoldsCurrent(s) && Enabled(c, s, a) && ByOneWorker(a) && !Arrives(a)
    ensures HoldsCurrent(Next(c, s, a))
  {
    hide RowsOk, Disjoint, WorkersOk, Trim, Enqueue, Ack, Reschedule, DeliveryFailure, Replay, Buffer, DueDigest, Unix,
         ClaimedEvent, NotAfter, LeaseEnd;
    if a.ClaimNext? { ClaimedIsOk(c, s.db, a.id); }
  }

  function Completions(actions: seq<Action>): nat
    decreases |actions|
  {
    if actions == [] then 0 else (if Completes(actions[0]) then 1 else 0) + Completions(actions[1..])
  }

  lemma {:induction false} RunDrains(c: Config, s: State, actions: seq<Action>)
    requires Inv(c, s) && HoldsPending(s) && HoldsCurrent(s) && OneWorkerRun(c, s, actions)
    requires forall i | 0 <= i < |actions| :: !Arrives(actions[i])
    ensures Inv(c, After(c, s, actions))
    ensures Budget(c, After(c, s, actions).db) + Completions(actions) <= Budget(c, s.db)
    decreases |actions|
  {
    hide Inv, HoldsPending, HoldsCurrent, Enabled, Next, ByOneWorker, Arrives, Completes, Budget;
    if actions != [] {
      StepKeepsInv(c, s, actions[0]);
      StepKeepsHoldsPending(c, s, actions[0]);
      StepKeepsHoldsCurrent(c, s, actions[0]);
      StepDrains(c, s, actions[0]);
      RunDrains(c, Next(c, s, actions[0]), actions[1..]);
    }
  }

  lemma EmptyAtZero(c: Config, db: Db)
    requires RowsOk(c, db)
    ensures Budget(c, db) >= |db.pending|
  {
    var left := Left(c, db.pending);
    SumOfPositive(left);
    assert left.Keys == db.pending.Keys;
    assert |left| == |db.pending|;
  }

  /** Without arrivals the queue is empty after as many completed processing steps as the budget of the pending rows,
      and never needs more. */
  lemma QueueDrains(c: Config, s: State, actions: seq<Action>)
    requires Inv(c, s) && PhaseOf(s, 0).Idle? && OneWorkerRun(c, s, actions)
    requires forall i | 0 <= i < |actions| :: !Arrives(actions[i])
    ensures Completions(actions) <= Budget(c, s.db)
    ensures Completions(actions) == Budget(c, s.db) ==> After(c, s, actions).db.pending == map[]
  {
    RunDrains(c, s, actions);
    EmptyAtZero(c, After(c, s, actions).db);
  }
}
