/** Concrete runs from an empty database: the exceptions to the theorems are reachable. */
module Scenarios {
  import opened Backoff
  import opened Clock
  import opened Horizon
  import opened Leases
  import opened Machine
  import opened Models
  import opened Safety
  import opened Starvation
  import opened Tables
  import opened Text

  const EVENT := MediaEvent("x", Route("a", "b", "c", "d"), "f", "", "", "", "", "", "", "", "", "", 0)

  lemma EventIsPlain()
    ensures Prepared(EVENT) == EVENT && Complete(EVENT) && !HasHash(EVENT) && EVENT.eventId == "x"
  {
  }

  /** Worker 0, the only one so far, holds the only pending event. */
  predicate HoldsOnly(c: Config, s: State, retryCount: nat) {
    && Inv(c, s) && s.workers.Keys == {0} && PhaseOf(s, 0).Holding? && HeldId(s, 0) == "x"
    && PhaseOf(s, 0).q.retryCount == retryCount && s.db.pending.Keys == {"x"}
  }

  predicate Reaches(c: Config, s: State, actions: seq<Action>, t: State) {
    Run(c, s, actions) && After(c, s, actions) == t
  }

  lemma ReachOne(c: Config, s: State, a: Action)
    requires Enabled(c, s, a)
    ensures Reaches(c, s, [a], Next(c, s, a))
  {
    hide Enabled, Next, Run, After;
    NoSteps(c, Next(c, s, a));
    OneStep(c, s, a, []);
    assert [a] + [] == [a];
  }

  lemma ReachOn(c: Config, s: State, first: seq<Action>, t: State, second: seq<Action>, u: State)
    requires Reaches(c, s, first, t) && Reaches(c, t, second, u)
    ensures Reaches(c, s, first + second, u)
  {
    hide Run, After;
    RunAppend(c, s, first, second);
  }

  lemma OnlyRowIsClaimable(db: Db, second: int)
    requires db.pending.Keys == {"x"} && db.pending["x"].availableAt <= second
    ensures Claimable(db, "x", second)
  {
    assert forall id | id in db.pending :: id in db.pending.Keys;
  }

  function Claimed(c: Config, s: State): State
    requires "x" in s.db.pending
  {
    s.(db := Claim(s.db, "x", s.now, c.lease), workers := s.workers[0 := Holding(ClaimedEvent("x", s.db.pending["x"]))])
  }

  lemma ClaimReaches(c: Config, s: State)
    requires Inv(c, s) && PhaseOf(s, 0).Idle? && "x" in s.db.pending && Claimable(s.db, "x", Unix(s.now))
    ensures Reaches(c, s, [ClaimNext(0, "x")], Claimed(c, s)) && Inv(c, Claimed(c, s))
  {
    hide Inv, Reaches, Claimable, ClaimedEvent, Claim, Unix;
    StepKeepsInv(c, s, ClaimNext(0, "x"));
    ReachOne(c, s, ClaimNext(0, "x"));
  }

  /** An idle worker 0 can claim the only pending event. */
  lemma ClaimOnly(c: Config, s: State) returns (t: State)
    requires Inv(c, s) && PhaseOf(s, 0).Idle? && s.workers.Keys <= {0}
    requires s.db.pending.Keys == {"x"} && s.db.pending["x"].availableAt <= Unix(s.now)
    ensures Reaches(c, s, [ClaimNext(0, "x")], t) && HoldsOnly(c, t, s.db.pending["x"].retryCount)
    ensures t.db.pending["x"].availableAt == LeaseEnd(s.now, c.lease) && t.now == s.now && t.hist == s.hist
  {
    hide Inv, Reaches, Claimable, ClaimedEvent, LeaseEnd, Unix;
    assert "x" in s.db.pending;
    OnlyRowIsClaimable(s.db, Unix(s.now));
    ClaimableIsOk(c, s, "x", Unix(s.now));
    ClaimReaches(c, s);
    t := Claimed(c, s);
    assert t.db.pending.Keys == {"x"};
  }

  lemma ProduceOnly(c: Config, now: nat)
    ensures var t := AfterProduce(c, Start(now), EVENT);
            && Inv(c, Start(now)) && t.db.pending.Keys == {"x"} && t.db.pending["x"].availableAt == Unix(now)
            && t.db.pending["x"].retryCount == 0 && t.workers == map[] && t.now == now && t.hist.sends == []
  {
    EventIsPlain();
    hide Prepared, HasHash, Trim, Unix;
    assert AfterProduce(c, Start(now), EVENT).db.pending == map["x" := FreshRow(EVENT, Unix(now))];
  }

  lemma ProduceReaches(c: Config, s: State, event: MediaEvent)
    requires Inv(c, s)
    ensures Reaches(c, s, [Produce(event)], AfterProduce(c, s, event)) && Inv(c, AfterProduce(c, s, event))
  {
    hide Inv, Reaches, AfterProduce;
    StepKeepsInv(c, s, Produce(event));
    ReachOne(c, s, Produce(event));
  }

  /** The event is enqueued and claimed at once. */
  lemma FirstClaim(c: Config, now: nat) returns (t: State)
    ensures Reaches(c, Start(now), [Produce(EVENT)] + [ClaimNext(0, "x")], t) && HoldsOnly(c, t, 0)
    ensures t.db.pending["x"].availableAt == LeaseEnd(now, c.lease) && t.now == now && t.hist.sends == []
  {
    ProduceOnly(c, now);
    hide Inv, LeaseEnd, Unix, AfterProduce, Start, Reaches;
    ProduceReaches(c, Start(now), EVENT);
    var s := AfterProduce(c, Start(now), EVENT);
    t := ClaimOnly(c, s);
    hide HoldsOnly;
    ReachOn(c, Start(now), [Produce(EVENT)], s, [ClaimNext(0, "x")], t);
  }

  lemma FailOnly(c: Config, s: State, retryCount: nat)
    requires HoldsOnly(c, s, retryCount) && retryCount < c.maxRetries
    ensures var t := AfterFail(c, s, 0, "down");
            && t.db.pending.Keys == {"x"} && t.db.pending["x"].retryCount == retryCount + 1
            && t.db.pending["x"].availableAt <= Unix(s.now + CAP) && PhaseOf(t, 0).Idle? && t.workers.Keys == {0}
            && t.now == s.now
  {
    hide RowsOk, Disjoint, WorkersOk, Trim, Unix, MoveToDead, FailureText;
    assert Trim("x") == "x" by { EventIsPlain(); }
    UnixMonotone(s.now + Delay(c.retryBase, retryCount + 1), s.now + CAP);
    assert "x" in s.db.pending;
  }

  lemma FailReaches(c: Config, s: State)
    requires Inv(c, s) && PhaseOf(s, 0).Holding? && PhaseOf(s, 0).q.retryCount >= 0
    ensures Reaches(c, s, [Fail(0, "down")], AfterFail(c, s, 0, "down")) && Inv(c, AfterFail(c, s, 0, "down"))
  {
    hide Inv, Reaches, AfterFail;
    StepKeepsInv(c, s, Fail(0, "down"));
    ReachOne(c, s, Fail(0, "down"));
  }

  lemma TickReaches(c: Config, s: State, elapsed: nat)
    requires Inv(c, s)
    ensures Reaches(c, s, [Tick(elapsed)], s.(now := s.now + elapsed)) && Inv(c, s.(now := s.now + elapsed))
  {
    hide Inv, Reaches;
    StepKeepsInv(c, s, Tick(elapsed));
    ReachOne(c, s, Tick(elapsed));
  }

  /** One failed delivery, the longest wait, and the next claim. */
  lemma RetryRound(c: Config, s: State, retryCount: nat) returns (round: seq<Action>, t: State)
    requires HoldsOnly(c, s, retryCount) && retryCount < c.maxRetries
    ensures Reaches(c, s, round, t) && HoldsOnly(c, t, retryCount + 1)
  {
    FailOnly(c, s, retryCount);
    hide Inv, LeaseEnd, Unix, AfterFail, Reaches;
    FailReaches(c, s);
    var failed := AfterFail(c, s, 0, "down");
    TickReaches(c, failed, CAP);
    var later := failed.(now := failed.now + CAP);
    t := ClaimOnly(c, later);
    hide HoldsOnly;
    ReachOn(c, s, [Fail(0, "down")], failed, [Tick(CAP)], later);
    round := [Fail(0, "down")] + [Tick(CAP)] + [ClaimNext(0, "x")];
    ReachOn(c, s, [Fail(0, "down")] + [Tick(CAP)], later, [ClaimNext(0, "x")], t);
  }

  /** For every configuration some run lets worker 0 hold the event with any retry count up to the limit. */
  lemma {:induction false} HeldAfterRetries(c: Config, now: nat, retryCount: nat) returns (actions: seq<Action>, t: State)
    requires retryCount <= c.maxRetries
    ensures Reaches(c, Start(now), actions, t) && HoldsOnly(c, t, retryCount)
  {
    hide Reaches, HoldsOnly, Start;
    if retryCount == 0 {
      t := FirstClaim(c, now);
      actions := [Produce(EVENT)] + [ClaimNext(0, "x")];
    } else {
      var before, s := HeldAfterRetries(c, now, retryCount - 1);
      var round;
      round, t := RetryRound(c, s, retryCount - 1);
      ReachOn(c, Start(now), before, s, round, t);
      actions := before + round;
    }
  }

  /** For every configuration a run from the empty database lets worker 0 claim the event and, in the same instant,
      makes it claimable again. */
  lemma LeaseCanBeReopened(c: Config, now: nat) returns (claimed: seq<Action>, s: State, more: seq<Action>, t: State)
    ensures Reaches(c, Start(now), claimed, s) && HoldsOnly(c, s, c.maxRetries)
    ensures Reaches(c, s, more, t) && t.now == s.now && Claimable(t.db, "x", Unix(s.now))
  {
    claimed, s := HeldAfterRetries(c, now, c.maxRetries);
    EventIsPlain();
    hide Run, After, Claimable, Unix, Prepared, Complete, HasHash, Inv, Start;
    DeadLetterReopensTheLease(c, s, 0, EVENT, "down");
    more := [Fail(0, "down"), Produce(EVENT)];
    t := After(c, s, more);
  }

  lemma WaitIsUndisturbed(c: Config, s: State, wait: nat)
    ensures UndisturbedRun(c, s, [Tick(wait)], "x")
  {
    hide Enabled, Next;
    TickIsUndisturbed(c, s, wait);
    assert [Tick(wait)][1..] == [];
  }

  lemma TickIsUndisturbed(c: Config, s: State, wait: nat)
    ensures Enabled(c, s, Tick(wait)) && !Releases(c, s, Tick(wait), "x") && !ReplaysId(s, Tick(wait), "x")
  {
  }

  /** For whole-second leases the bounds are attained: left alone, the event can be claimed by another worker at the very
      start of the second the lease ends in, and that is before the deadline of every send that started later than two
      seconds after the second of the claim. */
  lemma LeaseBoundIsTight(c: Config, now: nat, seconds: nat) returns (claimed: seq<Action>, s: State, wait: nat, t: State)
    requires seconds > 0 && c.lease == seconds * SECOND
    ensures Reaches(c, Start(now), claimed + [ClaimNext(0, "x")], s) && s.now == now
    ensures Reaches(c, s, [Tick(wait)], t) && UndisturbedRun(c, s, [Tick(wait)], "x")
    ensures Claimable(t.db, "x", Unix(t.now)) && PhaseOf(t, 1).Idle? && t.now == (Unix(now) + seconds) * SECOND
    ensures forall sendStart :: SendDeadline(sendStart, c.lease) > t.now <==> sendStart > (Unix(now) + 2) * SECOND
  {
    hide Reaches, LeaseEnd, Unix, Claimable, UndisturbedRun, Start, Inv;
    claimed := [Produce(EVENT)];
    s := FirstClaim(c, now);
    wait := (Unix(now) + seconds) * SECOND - now;
    WaitIsUndisturbed(c, s, wait);
    t := s.(now := now + wait);
    TickReaches(c, s, wait);
    WholeSecondLease(now, seconds);
    UnixShift(0, Unix(now) + seconds);
    UnixOfZero();
    OnlyRowIsClaimable(t.db, Unix(t.now));
  }

  lemma UnixOfZero()
    ensures Unix(0) == 0
  {
  }

  lemma SendOnly(c: Config, s: State) returns (t: State)
    requires HoldsOnly(c, s, 0) && s.hist.sends == []
    ensures Reaches(c, s, [Send(0)], t) && Inv(c, t) && PhaseOf(t, 0).Delivered? && t.db == s.db && t.now == s.now
    ensures t.hist.sends == [Sending("x", s.now)]
  {
    hide Reaches, Inv;
    t := Next(c, s, Send(0));
    StepKeepsInv(c, s, Send(0));
    ReachOne(c, s, Send(0));
  }

  /** For every configuration some run that crashes between send and ack sends the event twice as soon as the lease is over. */
  lemma SendCanRepeat(c: Config, now: nat, wait: nat) returns (actions: seq<Action>, t: State)
    requires LeaseEnd(now, c.lease) <= Unix(now + wait) && wait <= SEVEN_DAYS
    ensures Reaches(c, Start(now), actions, t)
    ensures t.hist.sends == [Sending("x", now), Sending("x", now + wait)] && !Spaced(t.hist.sends)
  {
    hide Reaches, LeaseEnd, Unix, Inv, Start, Spaced;
    var s := FirstClaim(c, now);
    var claim := [Produce(EVENT)] + [ClaimNext(0, "x")];
    var sent := SendOnly(c, s);
    ReachOn(c, Start(now), claim, s, [Send(0)], sent);
    var again;
    again, t := RepeatedSend(c, sent, wait);
    actions := claim + [Send(0)] + again;
    ReachOn(c, Start(now), claim + [Send(0)], sent, again, t);
  }

  lemma RepeatedSend(c: Config, s: State, wait: nat) returns (again: seq<Action>, t: State)
    requires Inv(c, s) && PhaseOf(s, 0).Delivered? && s.db.pending.Keys == {"x"} && s.hist.sends == [Sending("x", s.now)]
    requires s.db.pending["x"].availableAt <= Unix(s.now + wait) && wait <= SEVEN_DAYS
    ensures Reaches(c, s, again, t) && t.hist.sends == s.hist.sends + [Sending("x", s.now + wait)] && !Spaced(t.hist.sends)
  {
    hide Run, After, Unix, Inv, Spaced;
    again := [Crash(0), Tick(wait)] + [ClaimNext(0, "x"), Send(0)];
    CrashAfterSendRepeats(c, s, "x", wait);
    t := After(c, s, again);
  }

  /** A second event, asking for a time that has passed. */
  function Backdated(second: int): MediaEvent {
    EVENT.(eventId := "y", availableAt := second)
  }

  lemma BackdatedIsPlain(second: int)
    ensures var e := Backdated(second); Prepared(e) == e && Complete(e) && !HasHash(e)
  {
  }

  /** Backdated arrivals do overtake: after a wait of any length, an event enqueued for the second before the pending one's. */
  lemma ArrivalCanOvertake(c: Config, now: nat, wait: nat) returns (s: State)
    requires now >= 2 * SECOND
    ensures Reaches(c, Start(now), [Produce(EVENT)] + [Tick(wait)], s) && "x" in s.db.pending
    ensures Overtakes(c, s, Produce(Backdated(Unix(now) - 1)), "x")
  {
    ProduceOnly(c, now);
    ProduceLeavesUnprocessed(c, now);
    hide Inv, Unix, AfterProduce, Start, Reaches, Prepared, Trim, Complete, HasHash;
    ProduceReaches(c, Start(now), EVENT);
    var queued := AfterProduce(c, Start(now), EVENT);
    TickReaches(c, queued, wait);
    s := queued.(now := queued.now + wait);
    ReachOn(c, Start(now), [Produce(EVENT)], queued, [Tick(wait)], s);
    assert "x" in queued.db.pending;
    UnixShift(0, 2);
    UnixMonotone(2 * SECOND, now);
    UnixOfZero();
    BackdatedIsPlain(Unix(now) - 1);
    assert "y" !in s.db.pending.Keys;
  }

  lemma ProduceLeavesUnprocessed(c: Config, now: nat)
    ensures AfterProduce(c, Start(now), EVENT).db.processed == map[]
  {
    hide Enqueue, Prepared;
  }
}
