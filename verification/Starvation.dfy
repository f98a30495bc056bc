/** A due event is claimed after boundedly many claims of others. */
module Starvation {
  import opened Backoff
  import opened Clock
  import opened Leases
  import opened Machine
  import opened Models
  import opened Safety
  import opened Tables
  import opened Text
  import QueueStore

  /** The rows the claim query may return before a given one. */
  function Ahead(db: Db, id: string): set<string>
    requires id in db.pending
  {
    set k | k in db.pending && NotAfter(db.pending[k], db.pending[id])
  }

  /** A due event always lets some claim succeed. */
  lemma DueMeansClaimable(db: Db, id: string, second: int) returns (first: string)
    requires Due(db, id, second)
    ensures Claimable(db, first, second)
  {
    var due := set k | k in db.pending && Due(db, k, second);
    assert id in due;
    QueueStore.FirstDueExists(db, due);
    first :| first in due && forall other | other in due :: NotAfter(db.pending[first], db.pending[other]);
  }

  /** No retry delay overflows; DelaysCorrectIff says when that is. */
  predicate DelaysFit(c: Config) {
    c.maxRetries > 0 ==> c.retryBase > 0 && c.retryBase * Pow2(c.maxRetries - 1) < TWO_63
  }

  /** Steps that neither hand out the event nor touch its row. */
  predicate Bystander(c: Config, s: State, a: Action, id: string)
    requires Enabled(c, s, a) && id in s.db.pending
  {
    && !Releases(c, s, a, id) && !ReplaysId(s, a, id)
    && (a.ClaimNext? ==> a.id != id)
    && (a.Filter? || a.AckHeld? ==> HeldId(s, a.w) != id)
  }

  predicate BystanderRun(c: Config, s: State, actions: seq<Action>, id: string)
    ensures BystanderRun(c, s, actions, id) ==> Run(c, s, actions)
    decreases |actions|
  {
    actions == [] || (Enabled(c, s, actions[0]) && id in s.db.pending && Bystander(c, s, actions[0], id)
                      && BystanderRun(c, Next(c, s, actions[0]), actions[1..], id))
  }

  function Claims(actions: seq<Action>): nat
    decreases |actions|
  {
    if actions == [] then 0 else (if actions[0].ClaimNext? then 1 else 0) + Claims(actions[1..])
  }

  predicate Accepts(c: Config, db: Db, event: MediaEvent, now: int) {
    Enqueue(db, event, now, c.dedupeWindow).1 == Accepted
  }

  /** An accepted arrival that the claim query may return before the event. */
  predicate Overtakes(c: Config, s: State, a: Action, id: string)
    requires id in s.db.pending
    ensures Overtakes(c, s, a, id) ==> a.Produce?
  {
    && a.Produce? && Accepts(c, s.db, a.event, s.now)
    && NotAfter(FreshRow(Prepared(a.event), Unix(s.now)), s.db.pending[id])
  }

  /** The overtaking event of a step, if any. */
  function Newcomer(c: Config, s: State, a: Action, id: string): (ids: set<string>)
    requires id in s.db.pending
    ensures |ids| == if Overtakes(c, s, a, id) then 1 else 0
  {
    if Overtakes(c, s, a, id) then {Prepared(a.event).eventId} else {}
  }

  /** How many arrivals of a run overtake the event. */
  function Overtaking(c: Config, s: State, actions: seq<Action>, id: string): nat
    requires BystanderRun(c, s, actions, id)
    decreases |actions|
  {
    if actions == [] then 0
    else (if Overtakes(c, s, actions[0], id) then 1 else 0) + Overtaking(c, Next(c, s, actions[0]), actions[1..], id)
  }

  /** An accepted arrival enlarges the set of rows that may go first exactly when its own row is not after the event's. */
  lemma ArrivalEnlargesAheadIff(c: Config, s: State, event: MediaEvent, id: string)
    requires id in s.db.pending && Accepts(c, s.db, event, s.now)
    ensures var after := AfterProduce(c, s, event).db;
            && id in after.pending && Prepared(event).eventId !in Ahead(s.db, id)
            && Ahead(after, id) == Ahead(s.db, id) + Newcomer(c, s, Produce(event), id)
            && (Ahead(after, id) != Ahead(s.db, id) <==> NotAfter(FreshRow(Prepared(event), Unix(s.now)), s.db.pending[id]))
  {
    hide Enqueue, Prepared, Unix, NotAfter, FreshRow;
  }

  lemma RetryDelayIsIntended(c: Config, retry: nat)
    requires DelaysFit(c) && 0 < retry <= c.maxRetries
    ensures Delay(c.retryBase, retry) == Intended(c.retryBase, retry) > 0
  {
    Pow2Monotone(retry - 1, c.maxRetries - 1);
    ProductMonotone(c.retryBase, Pow2(retry - 1), Pow2(c.maxRetries - 1));
    DelayInRange(c.retryBase, retry);
  }

  /** Where a bystander leaves each row: gone, unchanged, or available only after a second that has passed. */
  predicate Settled(s: State, db: Db, k: string, second: int) {
    k in db.pending ==> (k in s.db.pending && db.pending[k] == s.db.pending[k]) || db.pending[k].availableAt > second
  }

  lemma ClaimSettles(c: Config, s: State, a: Action, k: string)
    requires Enabled(c, s, a) && a.ClaimNext?
    ensures Settled(s, Next(c, s, a).db, k, Unix(s.now) - 1)
    ensures a.id in Next(c, s, a).db.pending && Next(c, s, a).db.pending[a.id].availableAt >= Unix(s.now)
  {
    hide Unix, ClaimedEvent, NotAfter, LeaseEnd;
    LeaseEndIsLater(s.now, c.lease);
  }

  lemma RateLimitSettles(c: Config, s: State, w: nat, k: string)
    requires Inv(c, s) && PhaseOf(s, w).Holding?
    ensures Settled(s, AfterRateLimit(s, w).db, k, Unix(s.now) - 1)
  {
    hide RowsOk, Disjoint, WorkersOk, Trim, Reschedule, Unix;
    HeldIsOk(c, s, w);
    UnixMonotone(s.now, s.now + 5 * SECOND);
  }

  lemma OtherSettles(c: Config, s: State, a: Action, k: string)
    requires Enabled(c, s, a) && !a.Produce? && !a.ClaimNext? && !a.Fail? && !a.RateLimited?
    ensures Settled(s, Next(c, s, a).db, k, Unix(s.now) - 1)
  {
    hide Trim, Ack, Replay, Replayable, Buffer, DueDigest, Unix;
  }

  /** Every step but an arrival settles each row. */
  lemma StepSettles(c: Config, s: State, a: Action, k: string)
    requires Inv(c, s) && DelaysFit(c) && Enabled(c, s, a) && !a.Produce?
    ensures Settled(s, Next(c, s, a).db, k, Unix(s.now) - 1)
  {
    hide Inv, DelaysFit, Unix, Settled, AfterAck, AfterBuffer, AfterProduce, AfterRateLimit, AfterReplay, Claim, DueDigest, NotAfter;
    match a
    case ClaimNext(_, _) => ClaimSettles(c, s, a, k);
    case Fail(w, reason) => FailureSettles(c, s, w, reason, k);
    case RateLimited(w) => RateLimitSettles(c, s, w, k);
    case _ => OtherSettles(c, s, a, k);
  }

  lemma FailureSettles(c: Config, s: State, w: nat, reason: string, k: string)
    requires Inv(c, s) && DelaysFit(c) && PhaseOf(s, w).Holding?
    ensures PhaseOf(s, w).q.retryCount >= 0
    ensures Settled(s, DeliveryFailure(c, s.db, PhaseOf(s, w).q, reason, s.now), k, Unix(s.now) - 1)
  {
    hide RowsOk, Disjoint, WorkersOk, DelaysFit, Trim, Reschedule, MoveToDead, Unix, Delay;
    HeldIsOk(c, s, w);
    var retry := PhaseOf(s, w).q.retryCount + 1;
    if retry <= c.maxRetries {
      RetryDelayIsIntended(c, retry);
      UnixMonotone(s.now, s.now + Delay(c.retryBase, retry));
    }
  }

  lemma BystanderKeepsRow(c: Config, s: State, a: Action, id: string)
    requires Inv(c, s) && Enabled(c, s, a) && id in s.db.pending && Bystander(c, s, a, id)
    ensures id in Next(c, s, a).db.pending && Next(c, s, a).db.pending[id] == s.db.pending[id]
  {
    hide RowsOk, Disjoint, WorkersOk, Trim, Replayable, NotAfter, Next, Unix;
    if a.Filter? || a.AckHeld? || a.Fail? || a.RateLimited? { HeldIsOk(c, s, a.w); }
    UntouchedRowStays(c, s, a, id);
  }

  /** No step of others but an arrival puts a row ahead of an event the clock has passed. */
  lemma OtherStepsShrinkAhead(c: Config, s: State, a: Action, id: string)
    requires Inv(c, s) && DelaysFit(c) && Enabled(c, s, a) && !a.Produce? && id in s.db.pending && Bystander(c, s, a, id)
    requires s.db.pending[id].availableAt < Unix(s.now)
    requires id in Next(c, s, a).db.pending && Next(c, s, a).db.pending[id] == s.db.pending[id]
    ensures Ahead(Next(c, s, a).db, id) <= Ahead(s.db, id)
    ensures a.ClaimNext? ==> a.id in Ahead(s.db, id) && a.id !in Ahead(Next(c, s, a).db, id)
  {
    hide Inv, Next, DelaysFit, Unix;
    var db := Next(c, s, a).db;
    forall k | k in Ahead(db, id) ensures k in Ahead(s.db, id) {
      StepSettles(c, s, a, k);
    }
    if a.ClaimNext? {
      ClaimSettles(c, s, a, a.id);
      assert Due(s.db, id, Unix(s.now));
    }
  }

  lemma ProduceStep(c: Config, s: State, a: Action)
    requires Enabled(c, s, a) && a.Produce?
    ensures Next(c, s, a) == AfterProduce(c, s, a.event)
  {
    hide AfterProduce;
  }

  /** Of the steps of others only an overtaking arrival puts a row ahead of an event the clock has passed, and every claim
      of another row takes one away. */
  lemma StepShrinksAhead(c: Config, s: State, a: Action, id: string)
    requires Inv(c, s) && DelaysFit(c) && Enabled(c, s, a) && id in s.db.pending && Bystander(c, s, a, id)
    requires s.db.pending[id].availableAt < Unix(s.now)
    ensures var db := Next(c, s, a).db;
            && id in db.pending && db.pending[id] == s.db.pending[id]
            && Ahead(db, id) <= Ahead(s.db, id) + Newcomer(c, s, a, id)
            && (a.ClaimNext? ==> a.id in Ahead(s.db, id) && a.id !in Ahead(db, id))
  {
    hide Inv, Enabled, Next, DelaysFit, Unix, Bystander, Prepared, Ahead, AfterProduce, NotAfter, Accepts;
    BystanderKeepsRow(c, s, a, id);
    if a.Produce? {
      ProduceStep(c, s, a);
      ProduceShrinksAhead(c, s, a.event, id);
    } else {
      OtherStepsShrinkAhead(c, s, a, id);
    }
  }

  lemma ProduceShrinksAhead(c: Config, s: State, event: MediaEvent, id: string)
    requires id in s.db.pending
    ensures var after := AfterProduce(c, s, event).db;
            && id in after.pending
            && Ahead(after, id) <= Ahead(s.db, id) + Newcomer(c, s, Produce(event), id)
  {
    hide Enqueue, Prepared, Overtakes, NotAfter;
    if Accepts(c, s.db, event, s.now) { ArrivalEnlargesAheadIff(c, s, event, id); }
  }

  lemma CountChange<T>(before: set<T>, after: set<T>, gone: set<T>, came: set<T>)
    requires gone <= before && gone !! after && after <= before + came
    ensures |after| + |gone| <= |before| + |came|
  {
    var rest := before - gone;
    assert |rest| + |gone| == |before|;
    SubsetSize(after, rest + came);
    assert |rest + came| <= |rest| + |came|;
  }

  lemma StepCountsAhead(c: Config, s: State, a: Action, id: string)
    requires Inv(c, s) && DelaysFit(c) && Enabled(c, s, a) && id in s.db.pending && Bystander(c, s, a, id)
    requires s.db.pending[id].availableAt < Unix(s.now)
    ensures var db := Next(c, s, a).db;
            && id in db.pending && db.pending[id] == s.db.pending[id]
            && |Ahead(db, id)| + (if a.ClaimNext? then 1 else 0) <= |Ahead(s.db, id)| + |Newcomer(c, s, a, id)|
  {
    hide Inv, Enabled, Next, DelaysFit, Bystander, Ahead, Unix, Newcomer;
    StepShrinksAhead(c, s, a, id);
    var gone: set<string> := if a.ClaimNext? then {a.id} else {};
    CountChange(Ahead(s.db, id), Ahead(Next(c, s, a).db, id), gone, Newcomer(c, s, a, id));
  }

  lemma {:induction false} BystandersRunOut(c: Config, s: State, actions: seq<Action>, id: string)
    requires Inv(c, s) && DelaysFit(c) && BystanderRun(c, s, actions, id)
    requires id in s.db.pending && s.db.pending[id].availableAt < Unix(s.now)
    ensures var db := After(c, s, actions).db;
            && id in db.pending && db.pending[id] == s.db.pending[id]
            && |Ahead(db, id)| + Claims(actions) <= |Ahead(s.db, id)| + Overtaking(c, s, actions, id)
    decreases |actions|
  {
    hide Inv, Enabled, Next, DelaysFit, Bystander, Ahead, Unix, Overtakes;
    if actions != [] {
      var a, next := actions[0], Next(c, s, actions[0]);
      StepKeepsInv(c, s, a);
      StepCountsAhead(c, s, a, id);
      StepClock(c, s, a);
      UnixMonotone(s.now, next.now);
      BystandersRunOut(c, next, actions[1..], id);
    }
  }

  lemma {:induction false} SubsetSize<T>(a: set<T>, b: set<T>)
    requires a <= b
    ensures |a| <= |b|
  {
    assert |b - a| + |a| == |b|;
  }

  /** Once the clock is past a pending event, fewer claims can go to other events than there were rows not after it, plus
      one for each arrival that overtakes it. */
  lemma NoStarvation(c: Config, s: State, actions: seq<Action>, id: string)
    requires Inv(c, s) && DelaysFit(c) && BystanderRun(c, s, actions, id)
    requires id in s.db.pending && s.db.pending[id].availableAt < Unix(s.now)
    ensures Claims(actions) < |Ahead(s.db, id)| + Overtaking(c, s, actions, id)
  {
    BystandersRunOut(c, s, actions, id);
    assert id in Ahead(After(c, s, actions).db, id);
  }

  /** No arrival that asks for a time after the event's own, or for none once the clock has passed, overtakes it. */
  lemma OnlyBackdatedOvertake(c: Config, s: State, event: MediaEvent, id: string)
    requires id in s.db.pending && s.db.pending[id].availableAt < Unix(s.now)
    requires event.availableAt <= 0 || event.availableAt > s.db.pending[id].availableAt
    ensures !Overtakes(c, s, Produce(event), id)
  {
    hide Unix, Enqueue, Trim, TrimRoute;
  }
}
