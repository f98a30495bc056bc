/** Concrete runs in which a second worker is handed an event it should wait for: what a replay of a held event and a
    worker that has outlived its lease can do. */
module Handovers {
  import opened Clock
  import opened Horizon
  import opened Leases
  import opened Machine
  import opened Models
  import opened Safety
  import opened Scenarios
  import opened Tables
  import opened Text

  /** The event of the runs, asking for a time. */
  function Asking(second: int): MediaEvent {
    EVENT.(availableAt := second)
  }

  lemma AskingIsPlain(second: int)
    ensures Prepared(Asking(second)) == Asking(second) && Complete(Asking(second)) && !HasHash(Asking(second))
    ensures Trim("x") == "x" && Trim("") == ""
  {
  }

  lemma Step(c: Config, begin: State, run: seq<Action>, s: State, a: Action) returns (more: seq<Action>, t: State)
    requires Reaches(c, begin, run, s) && Inv(c, s) && Enabled(c, s, a)
    ensures Reaches(c, begin, more, t) && Inv(c, t) && t == Next(c, s, a) && more == run + [a]
  {
    hide Reaches, Inv, Enabled, Next;
    t, more := Next(c, s, a), run + [a];
    StepKeepsInv(c, s, a);
    ReachOne(c, s, a);
    ReachOn(c, begin, run, s, [a], t);
  }

  // ---- single steps on the one event ----

  /** The same clock and the same sends. */
  predicate SameView(s: State, t: State) {
    t.now == s.now && t.hist.sends == s.hist.sends
  }

  predicate HoldsX(s: State, w: nat) {
    PhaseOf(s, w).Holding? && HeldId(s, w) == "x"
  }

  lemma FailStep(c: Config, s: State, w: nat)
    requires PhaseOf(s, w).Holding? && PhaseOf(s, w).q.retryCount >= 0
    ensures Enabled(c, s, Fail(w, "down")) && Next(c, s, Fail(w, "down")) == AfterFail(c, s, w, "down")
  {
    hide AfterFail;
  }

  lemma BuryStep(c: Config, s: State, w: nat)
    requires Inv(c, s) && HoldsX(s, w) && PhaseOf(s, w).q.retryCount == c.maxRetries
    requires s.db.pending.Keys == {"x"}
    ensures var t := AfterFail(c, s, w, "down");
            && SameView(s, t) && t.workers == s.workers[w := Idle] && t.db.pending == map[] && "x" !in t.db.processed
            && s.db.nextDead in t.db.dead && t.db.dead[s.db.nextDead].eventId == "x"
            && Enabled(c, s, Fail(w, "down")) && Next(c, s, Fail(w, "down")) == t
  {
    AskingIsPlain(0);
    LastFailureBuries(c, s, w, "down");
    FailStep(c, s, w);
    hide Trim, Unix, Inv, DeliveryFailure, Enabled, Next;
    assert "x" in s.db.pending;
  }

  lemma EnqueueStep(c: Config, s: State, second: int)
    requires s.db.pending == map[] && "x" !in s.db.processed
    ensures Enqueue(s.db, Asking(second), s.now, c.dedupeWindow).1 == Accepted
    ensures var t := AfterProduce(c, s, Asking(second));
            && Enabled(c, s, Produce(Asking(second))) && Next(c, s, Produce(Asking(second))) == t
            && SameView(s, t) && t.workers == s.workers && t.db.dead == s.db.dead && t.db.processed == s.db.processed
            && t.db.pending == map["x" := FreshRow(Asking(second), Unix(s.now))]
  {
    AskingIsPlain(second);
    hide Prepared, Complete, HasHash, Unix, FreshRow;
  }

  lemma ClaimEffect(c: Config, s: State, w: nat)
    requires s.db.pending.Keys == {"x"} && Enabled(c, s, ClaimNext(w, "x")) && "x" in s.db.pending
    requires ClaimedEvent("x", s.db.pending["x"]).event.eventId == "x"
    ensures var t := Next(c, s, ClaimNext(w, "x"));
            && SameView(s, t) && HoldsX(t, w) && t.workers == s.workers[w := t.workers[w]]
            && t.db.dead == s.db.dead && t.db.processed == s.db.processed && t.db.pending.Keys == {"x"}
  {
    hide Claimable, Unix, LeaseEnd, ClaimedEvent;
  }

  lemma ClaimStep(c: Config, s: State, w: nat)
    requires Inv(c, s) && PhaseOf(s, w).Idle? && s.db.pending.Keys == {"x"} && s.db.pending["x"].availableAt <= Unix(s.now)
    ensures Enabled(c, s, ClaimNext(w, "x"))
    ensures var t := Next(c, s, ClaimNext(w, "x"));
            && SameView(s, t) && HoldsX(t, w) && t.workers == s.workers[w := t.workers[w]]
            && t.db.dead == s.db.dead && t.db.processed == s.db.processed && t.db.pending.Keys == {"x"}
  {
    hide Unix, ClaimedEvent, Claimable, RowsOk, Disjoint, WorkersOk, Next, SameView, HoldsX;
    OnlyRowIsClaimable(s.db, Unix(s.now));
    assert "x" in s.db.pending;
    ClaimedIsOk(c, s.db, "x");
    ClaimEffect(c, s, w);
  }

  lemma ReplayStep(c: Config, s: State, letter: nat)
    requires letter in s.db.dead && s.db.dead[letter].eventId == "x" && s.db.pending.Keys == {"x"} && "x" !in s.db.processed
    ensures Enabled(c, s, ReplayLetter(letter, "", ""))
    ensures var t := Next(c, s, ReplayLetter(letter, "", ""));
            && SameView(s, t) && t.workers == s.workers && t.db.pending.Keys == {"x"} && t.db.pending["x"].availableAt == Unix(s.now)
  {
    AskingIsPlain(0);
    hide Trim, Unix;
    assert "x" in s.db.pending;
  }

  lemma SendStep(c: Config, s: State, w: nat)
    requires HoldsX(s, w)
    ensures Enabled(c, s, Send(w))
    ensures var t := Next(c, s, Send(w));
            t.now == s.now && t.hist.sends == s.hist.sends + [Sending("x", s.now)] && t.workers == s.workers[w := t.workers[w]]
  {
  }

  lemma FreshIsDue(event: MediaEvent, second: int)
    requires event.availableAt <= 0
    ensures FreshRow(event, second).availableAt == second
  {
  }

  // ---- a replay of a held event ----

  /** The dead letter is back in the queue under the same id, and worker 0 holds the event. */
  predicate HeldWithLetter(c: Config, s: State, letter: nat) {
    && Inv(c, s) && HoldsX(s, 0) && PhaseOf(s, 1).Idle? && s.db.pending.Keys == {"x"} && "x" !in s.db.processed
    && letter in s.db.dead && s.db.dead[letter].eventId == "x"
  }

  /** For every configuration a run from the empty database buries the event and hands it, enqueued again, to worker 0. */
  lemma BuriedAndHeldAgain(c: Config, now: nat) returns (run: seq<Action>, t: State, letter: nat)
    ensures Reaches(c, Start(now), run, t) && HeldWithLetter(c, t, letter)
  {
    hide Reaches, Inv, Next, Enabled, FreshRow, Unix, AfterProduce, AfterFail, Start;
    run, t := HeldAfterRetries(c, now, c.maxRetries);
    letter := t.db.nextDead;
    assert PhaseOf(t, 1).Idle?;
    BuryStep(c, t, 0);
    run, t := Step(c, Start(now), run, t, Fail(0, "down"));
    EnqueueStep(c, t, 0);
    FreshIsDue(Asking(0), Unix(t.now));
    run, t := Step(c, Start(now), run, t, Produce(Asking(0)));
    ClaimStep(c, t, 0);
    run, t := Step(c, Start(now), run, t, ClaimNext(0, "x"));
  }

  /** Replaying the letter of an event that a worker holds hands it to a second worker, and both send it, while no time
      passes at all. */
  lemma HeldReplayRepeats(c: Config, s: State, letter: nat) returns (run: seq<Action>, t: State)
    requires HeldWithLetter(c, s, letter)
    ensures run == [ReplayLetter(letter, "", ""), ClaimNext(1, "x"), Send(0), Send(1)] && Reaches(c, s, run, t)
    ensures t.now == s.now && t.hist.sends == s.hist.sends + [Sending("x", s.now), Sending("x", s.now)] && !Spaced(t.hist.sends)
  {
    hide Reaches, Inv, Next, Enabled, Unix, Spaced;
    assert Reaches(c, s, [], s) by { NoStepsReach(c, s); }
    ReplayStep(c, s, letter);
    run, t := Step(c, s, [], s, ReplayLetter(letter, "", ""));
    ClaimStep(c, t, 1);
    run, t := Step(c, s, run, t, ClaimNext(1, "x"));
    SendStep(c, t, 0);
    run, t := Step(c, s, run, t, Send(0));
    SendStep(c, t, 1);
    run, t := Step(c, s, run, t, Send(1));
    SentTwice(s.hist.sends, s.now);
  }

  lemma NoStepsReach(c: Config, s: State)
    ensures Reaches(c, s, [], s)
  {
  }

  lemma SentTwice(sends: seq<Sending>, at: int)
    ensures !Spaced(sends + [Sending("x", at)] + [Sending("x", at)])
  {
    var twice := sends + [Sending("x", at)] + [Sending("x", at)];
    assert twice[|sends|] == twice[|sends| + 1] == Sending("x", at);
  }

  // ---- a worker that has outlived its lease ----

  /** Worker 0 has waited out its lease, worker 1 has claimed the event, and worker 0 has then buried it. */
  lemma BuriedUnderWorkerOne(c: Config, now: nat) returns (run: seq<Action>, t: State)
    ensures Reaches(c, Start(now), run, t) && Inv(c, t) && HoldsX(t, 1) && PhaseOf(t, 0).Idle?
    ensures t.db.pending == map[] && "x" !in t.db.processed
  {
    hide Reaches, Inv, Next, Enabled, AfterFail, Unix, Start;
    run, t := HeldAfterRetries(c, now, c.maxRetries);
    assert "x" in t.db.pending;
    var wait := WaitFor(t, t.db.pending["x"].availableAt);
    run, t := Step(c, Start(now), run, t, Tick(wait));
    ClaimStep(c, t, 1);
    run, t := Step(c, Start(now), run, t, ClaimNext(1, "x"));
    BuryStep(c, t, 0);
    run, t := Step(c, Start(now), run, t, Fail(0, "down"));
  }

  lemma WaitFor(s: State, second: int) returns (wait: nat)
    ensures second <= Unix(s.now + wait)
    ensures forall c: Config :: Enabled(c, s, Tick(wait)) && Next(c, s, Tick(wait)) == s.(now := s.now + wait)
  {
    wait := if second <= Unix(s.now) then 0 else (second - Unix(s.now)) * SECOND;
    UnixShift(s.now, second - Unix(s.now));
  }

  /** The deferral does need that no worker holds the id: for every configuration some worker from the event's first life
      makes a deferred event claimable five seconds after it was accepted, however late it asked to be delivered, without
      any claim or replay in between. */
  lemma StaleWorkerBringsForward(c: Config, now: nat, later: nat) returns (run: seq<Action>, s: State, event: MediaEvent, t: State)
    requires later > 5
    ensures Reaches(c, Start(now), run, s) && Enqueue(s.db, event, s.now, c.dedupeWindow).1 == Accepted
    ensures event.eventId == "x" && event.availableAt == Unix(s.now) + later
    ensures var queued := AfterProduce(c, s, event); var actions := [RateLimited(1), Tick(5 * SECOND)];
            UnclaimedRun(c, queued, actions, "x") && After(c, queued, actions) == t
    ensures t.now == s.now + 5 * SECOND && Claimable(t.db, "x", Unix(t.now)) && Unix(t.now) < event.availableAt
  {
    run, s := BuriedUnderWorkerOne(c, now);
    var second := Unix(s.now) + later;
    event := Asking(second);
    EnqueueStep(c, s, second);
    UnixShift(s.now, 5);
    hide *;
    t := LimitThenWait(c, AfterProduce(c, s, event));
  }

  lemma UnclaimedStep(c: Config, s: State, a: Action, rest: seq<Action>)
    requires Enabled(c, s, a) && (a.RateLimited? || a.Tick?) && UnclaimedRun(c, Next(c, s, a), rest, "x")
    ensures UnclaimedRun(c, s, [a] + rest, "x") && After(c, s, [a] + rest) == After(c, Next(c, s, a), rest)
  {
    hide Enabled, Next;
    assert ([a] + rest)[1..] == rest;
  }

  lemma LimitThenWait(c: Config, s: State) returns (t: State)
    requires HoldsX(s, 1) && s.db.pending.Keys == {"x"}
    ensures var actions := [RateLimited(1), Tick(5 * SECOND)]; UnclaimedRun(c, s, actions, "x") && After(c, s, actions) == t
    ensures t.now == s.now + 5 * SECOND && Claimable(t.db, "x", Unix(t.now))
  {
    AskingIsPlain(0);
    hide Trim, Unix, Claimable;
    var limited := AfterRateLimit(s, 1);
    t := limited.(now := limited.now + 5 * SECOND);
    assert "x" in s.db.pending;
    OnlyRowIsClaimable(t.db, Unix(t.now));
    UnclaimedStep(c, limited, Tick(5 * SECOND), []);
    UnclaimedStep(c, s, RateLimited(1), [Tick(5 * SECOND)]);
    assert [RateLimited(1)] + [Tick(5 * SECOND)] == [RateLimited(1), Tick(5 * SECOND)];
    assert [Tick(5 * SECOND)] + [] == [Tick(5 * SECOND)];
  }
}
