/** Lease exclusion and deferral of quiet-hour messages. */
module Leases {
  import opened Clock
  import opened Horizon
  import opened Machine
  import opened Models
  import opened QuietHours
  import opened Safety
  import opened Tables
  import opened Text

  function HeldId(s: State, w: nat): string
    requires !PhaseOf(s, w).Idle?
  {
    PhaseOf(s, w).q.event.eventId
  }

  /** A failure or rate limit of a worker that holds the event reschedules it or moves it to the dead letters. */
  predicate Releases(c: Config, s: State, a: Action, id: string)
    requires Enabled(c, s, a)
  {
    (a.Fail? && HeldId(s, a.w) == id) || (a.RateLimited? && HeldId(s, a.w) == id)
  }

  /** A run in which nobody reschedules, dead-letters or replays the event. */
  predicate UndisturbedRun(c: Config, s: State, actions: seq<Action>, id: string)
    ensures UndisturbedRun(c, s, actions, id) ==> Run(c, s, actions)
    decreases |actions|
  {
    actions == [] || (Enabled(c, s, actions[0]) && !Releases(c, s, actions[0], id) && !ReplaysId(s, actions[0], id)
                      && UndisturbedRun(c, Next(c, s, actions[0]), actions[1..], id))
  }

  /** Since t0 the event is leased up to a second, or was processed, or a week has passed. */
  predicate Fenced(s: State, id: string, t0: int, until: int) {
    || s.now - t0 > SEVEN_DAYS
    || (id in s.db.pending && s.db.pending[id].availableAt >= until)
    || (id in s.db.processed && s.db.processed[id] >= Unix(t0))
  }

  lemma LeaseEndIsLater(now: int, lease: int)
    ensures LeaseEnd(now, lease) >= Unix(now)
  {
    hide Unix;
    UnixMonotone(now, now + LeaseTime(lease));
  }

  lemma AckProcesses(c: Config, s: State, a: Action)
    requires Inv(c, s) && Enabled(c, s, a) && (a.Filter? || a.AckHeld?)
    ensures var db := Next(c, s, a).db; HeldId(s, a.w) in db.processed && db.processed[HeldId(s, a.w)] == Unix(s.now)
  {
    hide RowsOk, Disjoint, WorkersOk, Trim, Ack, Unix;
    HeldIsOk(c, s, a.w);
  }

  lemma ClaimLeases(c: Config, s: State, a: Action)
    requires Enabled(c, s, a) && a.ClaimNext?
    ensures var db := Next(c, s, a).db;
            a.id in db.pending && db.pending[a.id].availableAt >= Unix(s.now) >= s.db.pending[a.id].availableAt
  {
    hide Unix, NotAfter, ClaimedEvent, LeaseEnd;
    LeaseEndIsLater(s.now, c.lease);
  }

  /** A leased row keeps its lease, gets a later one, or is acked. */
  lemma LeasedRowIsKept(c: Config, s: State, a: Action, id: string)
    requires Inv(c, s) && Enabled(c, s, a) && !Releases(c, s, a, id) && !ReplaysId(s, a, id) && id in s.db.pending
    ensures var db := Next(c, s, a).db;
            || (id in db.pending && db.pending[id].availableAt >= s.db.pending[id].availableAt)
            || (id in db.processed && db.processed[id] == Unix(s.now))
  {
    hide RowsOk, Disjoint, WorkersOk, Trim, Replayable, Unix, NotAfter, Next;
    if a.ClaimNext? {
      ClaimLeases(c, s, a);
    } else if a.Filter? || a.AckHeld? {
      AckProcesses(c, s, a);
      HeldIsOk(c, s, a.w);
    } else if a.Fail? || a.RateLimited? {
      HeldIsOk(c, s, a.w);
    }
    if !Touches(s, a, id) { UntouchedRowStays(c, s, a, id); }
  }

  lemma StepKeepsFence(c: Config, s: State, a: Action, id: string, t0: int, until: int)
    requires Inv(c, s) && Enabled(c, s, a) && !Releases(c, s, a, id) && !ReplaysId(s, a, id)
    requires t0 <= s.now && Fenced(s, id, t0, until)
    ensures Fenced(Next(c, s, a), id, t0, until)
  {
    hide Inv, Enabled, Releases, ReplaysId, Unix, Next;
    StepClock(c, s, a);
    UnixMonotone(t0, s.now);
    if id in s.db.processed && s.db.processed[id] >= Unix(t0) {
      ProcessedMarkStays(c, s, a, id);
      if a.ExpireProcessed? && id in a.ids { ExpiredIsOld(s.db.processed[id], t0, s.now); }
    } else if id in s.db.pending {
      LeasedRowIsKept(c, s, a, id);
    }
  }

  lemma {:induction false} RunKeepsFence(c: Config, s: State, actions: seq<Action>, id: string, t0: int, until: int)
    requires Inv(c, s) && UndisturbedRun(c, s, actions, id)
    requires t0 <= s.now && Fenced(s, id, t0, until)
    ensures Inv(c, After(c, s, actions)) && Fenced(After(c, s, actions), id, t0, until)
    decreases |actions|
  {
    hide Inv, Enabled, Next, Releases, ReplaysId, Fenced;
    if actions != [] {
      var next := Next(c, s, actions[0]);
      StepKeepsInv(c, s, actions[0]);
      StepKeepsFence(c, s, actions[0], id, t0, until);
      StepClock(c, s, actions[0]);
      RunKeepsFence(c, next, actions[1..], id, t0, until);
    }
  }

  /** A second that has reached the end of a lease is less than a second short of the whole lease. */
  lemma EndOfLease(start: int, lease: int, now: int)
    requires Unix(now) >= LeaseEnd(start, lease)
    ensures now - start > LeaseTime(lease) - SECOND
  {
  }

  lemma AfterAWeek(start: int, lease: int, now: int)
    requires now - start > SEVEN_DAYS >= LeaseTime(lease)
    ensures Unix(now) >= LeaseEnd(start, lease)
  {
    UnixMonotone(start + LeaseTime(lease), now);
  }

  /** Unless the event is rescheduled, dead-lettered or replayed in between, a second claim comes no earlier than the second
      the first lease ends in, which is more than the lease less a second; leases over a week only hold for a week. */
  lemma ClaimsAreALeaseApart(c: Config, s: State, w: nat, id: string, actions: seq<Action>, w2: nat)
    requires Inv(c, s) && Enabled(c, s, ClaimNext(w, id))
    requires var s1 := Next(c, s, ClaimNext(w, id));
             && UndisturbedRun(c, s1, actions, id)
             && Enabled(c, After(c, s1, actions), ClaimNext(w2, id))
    ensures var t := After(c, Next(c, s, ClaimNext(w, id)), actions);
            && (LeaseTime(c.lease) <= SEVEN_DAYS ==>
                  Unix(t.now) >= LeaseEnd(s.now, c.lease) && t.now - s.now > LeaseTime(c.lease) - SECOND)
            && (t.now - s.now > SEVEN_DAYS || Unix(t.now) >= LeaseEnd(s.now, c.lease))
  {
    hide RowsOk, WorkersOk, ClaimedEvent, NotAfter, Unix, LeaseEnd;
    var s1 := Next(c, s, ClaimNext(w, id));
    StepKeepsInv(c, s, ClaimNext(w, id));
    RunKeepsFence(c, s1, actions, id, s.now, LeaseEnd(s.now, c.lease));
    var t := After(c, s1, actions);
    hide Inv, Next, Enabled, Fenced, LeaseTime, UndisturbedRun, After, Run;
    if t.now - s.now > SEVEN_DAYS >= LeaseTime(c.lease) { AfterAWeek(s.now, c.lease, t.now); }
    if Unix(t.now) >= LeaseEnd(s.now, c.lease) { EndOfLease(s.now, c.lease, t.now); }
  }

  /** In whole seconds that is a full lease. */
  lemma WholeSecondLease(now: int, seconds: nat)
    requires seconds > 0
    ensures LeaseEnd(now, seconds * SECOND) == Unix(now) + seconds
  {
    UnixShift(now, seconds);
  }

  lemma LastFailureBuries(c: Config, s: State, w: nat, reason: string)
    requires Inv(c, s) && PhaseOf(s, w).Holding? && PhaseOf(s, w).q.retryCount == c.maxRetries
    requires s.db.pending.Keys == {HeldId(s, w)}
    ensures var s1 := AfterFail(c, s, w, reason);
            s1.db.pending == map[] && s1.now == s.now && HeldId(s, w) !in s1.db.processed
  {
    hide Trim, Unix, RowsOk, WorkersOk;
    HeldIsOk(c, s, w);
    assert HeldId(s, w) in s.db.pending;
    assert AfterFail(c, s, w, reason).db.pending.Keys == {};
  }

  lemma PlainEventIsClaimable(c: Config, s: State, event: MediaEvent)
    requires s.db.pending == map[] && Prepared(event).eventId !in s.db.processed
    requires Complete(Prepared(event)) && !HasHash(Prepared(event)) && event.availableAt <= 0
    ensures Claimable(AfterProduce(c, s, event).db, Prepared(event).eventId, Unix(s.now)) && AfterProduce(c, s, event).now == s.now
  {
    hide Trim, Unix;
  }

  lemma FailThenProduce(c: Config, s: State, w: nat, event: MediaEvent, reason: string)
    requires PhaseOf(s, w).Holding? && PhaseOf(s, w).q.retryCount >= 0
    ensures var actions := [Fail(w, reason), Produce(event)];
            Run(c, s, actions) && After(c, s, actions) == AfterProduce(c, AfterFail(c, s, w, reason), event)
  {
    hide Run, After, AfterProduce, AfterFail;
    NoSteps(c, AfterProduce(c, AfterFail(c, s, w, reason), event));
    TwoSteps(c, s, Fail(w, reason), Produce(event), []);
    assert [Fail(w, reason), Produce(event)] + [] == [Fail(w, reason), Produce(event)];
  }

  /** The exception is real: a dead-lettered event can be enqueued afresh and claimed again inside the first lease. */
  lemma DeadLetterReopensTheLease(c: Config, s: State, w: nat, event: MediaEvent, reason: string)
    requires Inv(c, s) && PhaseOf(s, w).Holding? && PhaseOf(s, w).q.retryCount == c.maxRetries
    requires s.db.pending.Keys == {HeldId(s, w)} && Prepared(event).eventId == HeldId(s, w)
    requires Complete(Prepared(event)) && !HasHash(Prepared(event)) && event.availableAt <= 0
    ensures var actions := [Fail(w, reason), Produce(event)];
            && Run(c, s, actions) && After(c, s, actions).now == s.now
            && Claimable(After(c, s, actions).db, HeldId(s, w), Unix(s.now))
  {
    hide Unix, RowsOk, Disjoint, WorkersOk, Prepared, Complete, HasHash, Claimable, Run, After, AfterProduce, AfterFail;
    FailThenProduce(c, s, w, event, reason);
    LastFailureBuries(c, s, w, reason);
    PlainEventIsClaimable(c, AfterFail(c, s, w, reason), event);
  }

  /** processQueuedEvent gives the consumer two seconds less than the lease. */
  function SendDeadline(sendStart: int, lease: int): int {
    sendStart + (lease - 2 * SECOND)
  }

  /** The send deadline is no later than the instant the row becomes claimable again exactly when sending starts within
      two seconds of the second of the claim. */
  lemma DeadlineBeforeReclaimIff(claimAt: int, sendStart: int, seconds: nat)
    requires seconds > 0
    ensures SendDeadline(sendStart, seconds * SECOND) <= LeaseEnd(claimAt, seconds * SECOND) * SECOND
       <==> sendStart <= (Unix(claimAt) + 2) * SECOND
    ensures claimAt <= sendStart <= claimAt + SECOND ==> sendStart <= (Unix(claimAt) + 2) * SECOND
  {
    WholeSecondLease(claimAt, seconds);
  }

  /** In every run that leaves the event alone, a send that starts within two seconds of the second of its claim has passed
      its deadline before anyone can claim the event again. */
  lemma DeadlinePassesBeforeReclaim(c: Config, s: State, w: nat, id: string, actions: seq<Action>, w2: nat, seconds: nat, sendStart: int)
    requires Inv(c, s) && Enabled(c, s, ClaimNext(w, id)) && seconds > 0 && c.lease == seconds * SECOND <= SEVEN_DAYS
    requires var s1 := Next(c, s, ClaimNext(w, id));
             && UndisturbedRun(c, s1, actions, id)
             && Enabled(c, After(c, s1, actions), ClaimNext(w2, id))
    requires sendStart <= (Unix(s.now) + 2) * SECOND
    ensures SendDeadline(sendStart, c.lease) <= After(c, Next(c, s, ClaimNext(w, id)), actions).now
  {
    ClaimsAreALeaseApart(c, s, w, id, actions, w2);
    var t := After(c, Next(c, s, ClaimNext(w, id)), actions);
    hide Inv, Next, Enabled, UndisturbedRun, After, Run;
    DeadlineBeforeReclaimIff(s.now, sendStart, seconds);
    assert LeaseEnd(s.now, c.lease) * SECOND <= t.now;
  }

  /** Two seconds after the claim itself can be too late, because leases end on whole seconds. */
  lemma TwoSecondsCanOverrun(seconds: nat)
    requires seconds > 0
    ensures SendDeadline(SECOND / 2 + 2 * SECOND, seconds * SECOND) > LeaseEnd(SECOND / 2, seconds * SECOND) * SECOND
  {
    WholeSecondLease(SECOND / 2, seconds);
    assert Unix(SECOND / 2) == 0;
  }

  // ---- quiet hours ----

  /** The single worker holds only events that are still pending. */
  predicate HoldsPending(s: State) {
    !PhaseOf(s, 0).Idle? ==> HeldId(s, 0) in s.db.pending
  }

  lemma StepKeepsHoldsPending(c: Config, s: State, a: Action)
    requires Inv(c, s) && HoldsPending(s) && Enabled(c, s, a) && ByOneWorker(a)
    ensures HoldsPending(Next(c, s, a))
  {
    hide RowsOk, Disjoint, WorkersOk, Trim, Enqueue, Ack, Reschedule, DeliveryFailure, Replay, Replayable, Buffer,
         DueDigest, Unix, ClaimedEvent,
         NotAfter, LeaseEnd, Prepared, FreshRow, ReplayedRow;
    if a.ClaimNext? { ClaimedIsOk(c, s.db, a.id); }
  }

  /** No worker holds the event. */
  predicate Unheld(s: State, id: string) {
    forall w | w in s.workers && !s.workers[w].Idle? :: s.workers[w].q.event.eventId != id
  }

  /** A run without a claim or a replay of the event. */
  predicate UnclaimedRun(c: Config, s: State, actions: seq<Action>, id: string)
    ensures UnclaimedRun(c, s, actions, id) ==> Run(c, s, actions)
    decreases |actions|
  {
    actions == [] || (Enabled(c, s, actions[0]) && !ReplaysId(s, actions[0], id)
                      && !(actions[0].ClaimNext? && actions[0].id == id)
                      && UnclaimedRun(c, Next(c, s, actions[0]), actions[1..], id))
  }

  lemma UnheldStaysUnheld(c: Config, s: State, a: Action, id: string)
    requires Inv(c, s) && Enabled(c, s, a) && !(a.ClaimNext? && a.id == id) && Unheld(s, id)
    ensures Unheld(Next(c, s, a), id)
  {
    hide RowsOk, Disjoint, WorkersOk, Enqueue, Ack, Reschedule, DeliveryFailure, Replay, Replayable, Buffer, DueDigest,
         Unix, ClaimedEvent, NotAfter, LeaseEnd, Prepared;
    if a.ClaimNext? { ClaimedIsOk(c, s.db, a.id); }
  }

  lemma UnheldIsUntouched(c: Config, s: State, a: Action, id: string)
    requires Inv(c, s) && Enabled(c, s, a) && !ReplaysId(s, a, id) && !(a.ClaimNext? && a.id == id) && Unheld(s, id)
    ensures !Touches(s, a, id)
  {
    hide RowsOk, Disjoint, WorkersOk, Trim, Replayable, NotAfter, Unix;
    if a.Filter? || a.AckHeld? || a.Fail? || a.RateLimited? { HeldIsOk(c, s, a.w); }
  }

  lemma {:induction false} UnclaimedStaysPut(c: Config, s: State, actions: seq<Action>, id: string)
    requires Inv(c, s) && UnclaimedRun(c, s, actions, id) && id in s.db.pending && Unheld(s, id)
    ensures var t := After(c, s, actions); id in t.db.pending && t.db.pending[id] == s.db.pending[id]
    decreases |actions|
  {
    hide Inv, Enabled, Next, ReplaysId, Unheld, Touches;
    if actions != [] {
      StepKeepsInv(c, s, actions[0]);
      UnheldIsUntouched(c, s, actions[0], id);
      UntouchedRowStays(c, s, actions[0], id);
      UnheldStaysUnheld(c, s, actions[0], id);
      UnclaimedStaysPut(c, Next(c, s, actions[0]), actions[1..], id);
    }
  }

  /** An event accepted during quiet hours, while no worker holds its id, is first claimed no earlier than the instant they
      end, by any number of workers, unless a dead letter with its id is replayed. */
  lemma DeferredUntilQuietHoursEnd(c: Config, s: State, event: MediaEvent, rule: Rule, arrived: int, actions: seq<Action>, id: string, w: nat)
    requires Inv(c, s) && id == Prepared(event).eventId && Unheld(s, id)
    requires Enqueue(s.db, event, s.now, c.dedupeWindow).1 == Accepted
    requires QuietHours.WellFormed(rule) && Quiet(rule, arrived)
    requires event.availableAt == Unix(Evaluate(rule, arrived).0) > 0
    requires var s1 := Next(c, s, Produce(event)); UnclaimedRun(c, s1, actions, id)
    requires Enabled(c, After(c, Next(c, s, Produce(event)), actions), ClaimNext(w, id))
    ensures After(c, Next(c, s, Produce(event)), actions).now >= Evaluate(rule, arrived).0
  {
    hide RowsOk, Disjoint, WorkersOk, NotAfter, Unix, Evaluate, Prepared, UnclaimedRun, Unheld;
    var s1 := Next(c, s, Produce(event));
    StepKeepsInv(c, s, Produce(event));
    UnheldStaysUnheld(c, s, Produce(event), id);
    UnclaimedStaysPut(c, s1, actions, id);
    DeferredSecondIsExact(rule, arrived);
    assert Prepared(event).availableAt == event.availableAt by { PreparedKeepsTime(event); }
  }

  /** With one worker no one holds the id of an event that can be accepted. */
  lemma OneWorkerHoldsOthers(c: Config, s: State, event: MediaEvent)
    requires HoldsPending(s) && s.workers.Keys <= {0} && Enqueue(s.db, event, s.now, c.dedupeWindow).1 == Accepted
    ensures Unheld(s, Prepared(event).eventId)
  {
    hide Prepared, Enqueue;
    assert forall w | w in s.workers :: w in s.workers.Keys;
  }

  lemma PreparedKeepsTime(event: MediaEvent)
    ensures Prepared(event).availableAt == event.availableAt
  {
  }
}
