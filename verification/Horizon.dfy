/** How far apart two deliveries of one event, and two acceptances of one medium, must be. */
module Horizon {
  import opened Clock
  import opened Machine
  import opened Models
  import opened Safety
  import opened Tables
  import opened Text

  // ---- one worker ----

  /** The processor loop is one goroutine: every worker step is by worker 0. */
  predicate ByOneWorker(a: Action) {
    match a
    case ClaimNext(w, _) => w == 0
    case Filter(w) => w == 0
    case BufferDigest(w, _) => w == 0
    case Send(w) => w == 0
    case AckHeld(w) => w == 0
    case Fail(w, _) => w == 0
    case RateLimited(w) => w == 0
    case Crash(w) => w == 0
    case _ => true
  }

  /** No crash, and no failed ack, between a successful send and its ack. */
  predicate AcksItsSends(s: State, a: Action) {
    a.Crash? ==> !PhaseOf(s, a.w).Delivered?
  }

  predicate CarefulRun(c: Config, s: State, actions: seq<Action>)
    ensures CarefulRun(c, s, actions) ==> Run(c, s, actions)
    decreases |actions|
  {
    actions == [] || (Enabled(c, s, actions[0]) && ByOneWorker(actions[0]) && AcksItsSends(s, actions[0])
                      && CarefulRun(c, Next(c, s, actions[0]), actions[1..]))
  }

  // ---- exactly once within seven days ----

  /** A past send is acked and remembered, about to be acked, or more than seven days old. */
  predicate SendCovered(s: State, sent: Sending) {
    || s.now - sent.at > SEVEN_DAYS
    || (sent.id in s.db.processed && s.db.processed[sent.id] >= Unix(sent.at))
    || (PhaseOf(s, 0).Delivered? && PhaseOf(s, 0).q.event.eventId == sent.id)
  }

  predicate SendInv(c: Config, s: State) {
    && Inv(c, s)
    && (PhaseOf(s, 0).Holding? ==> PhaseOf(s, 0).q.event.eventId !in s.db.processed)
    && (forall i | 0 <= i < |s.hist.sends| :: SendCovered(s, s.hist.sends[i]) && s.hist.sends[i].at <= s.now)
    && Spaced(s.hist.sends)
  }

  /** Two sends of one event are more than seven days apart. */
  predicate Spaced(sends: seq<Sending>) {
    forall i, j | 0 <= i < j < |sends| && sends[i].id == sends[j].id :: sends[j].at - sends[i].at > SEVEN_DAYS
  }

  lemma ExpiredIsOld(processedAt: int, sentAt: int, now: int)
    requires Unix(sentAt) <= processedAt < Unix(now - SEVEN_DAYS)
    ensures now - sentAt > SEVEN_DAYS
  {
  }

  /** Only the worker's own ack, which marks the event, lets go of a delivered event. */
  lemma DeliveredIsAcked(c: Config, s: State, a: Action)
    requires Inv(c, s) && Enabled(c, s, a) && ByOneWorker(a) && AcksItsSends(s, a) && PhaseOf(s, 0).Delivered?
    ensures var t := Next(c, s, a); var id := PhaseOf(s, 0).q.event.eventId;
            PhaseOf(t, 0) == PhaseOf(s, 0) || (id in t.db.processed && t.db.processed[id] == Unix(s.now))
  {
    hide RowsOk, Disjoint, WorkersOk, Trim, Enqueue, Ack, Reschedule, DeliveryFailure, Replay, Buffer, DueDigest, Unix,
         ClaimedEvent, Claimable,
         Prepared, Replayable;
    HeldIsOk(c, s, 0);
  }

  lemma StepCoversSend(c: Config, s: State, a: Action, sent: Sending)
    requires SendInv(c, s) && Enabled(c, s, a) && ByOneWorker(a) && AcksItsSends(s, a)
    requires SendCovered(s, sent) && sent.at <= s.now
    ensures SendCovered(Next(c, s, a), sent)
  {
    StepClock(c, s, a);
    hide Inv, Enabled, Next, Spaced, Unix, ByOneWorker, AcksItsSends;
    UnixMonotone(sent.at, s.now);
    if sent.id in s.db.processed && s.db.processed[sent.id] >= Unix(sent.at) {
      ProcessedMarkStays(c, s, a, sent.id);
      if a.ExpireProcessed? && sent.id in a.ids { ExpiredIsOld(s.db.processed[sent.id], sent.at, s.now); }
    } else if PhaseOf(s, 0).Delivered? {
      DeliveredIsAcked(c, s, a);
    }
  }

  /** The worker never holds an event that is already processed. */
  lemma StepKeepsHeldUnprocessed(c: Config, s: State, a: Action)
    requires SendInv(c, s) && Enabled(c, s, a) && ByOneWorker(a)
    ensures var t := Next(c, s, a); PhaseOf(t, 0).Holding? ==> PhaseOf(t, 0).q.event.eventId !in t.db.processed
  {
    hide Trim, Enqueue, Ack, Reschedule, DeliveryFailure, Replay, Buffer, DueDigest, Unix, ClaimedEvent, Spaced,
         SendCovered, Prepared, Replayable, RowsOk, WorkersOk, NotAfter;
    if a.ClaimNext? { ClaimedIsOk(c, s.db, a.id); }
  }

  lemma StepKeepsSendInv(c: Config, s: State, a: Action)
    requires SendInv(c, s) && Enabled(c, s, a) && ByOneWorker(a) && AcksItsSends(s, a)
    ensures SendInv(c, Next(c, s, a))
  {
    hide Inv, Enabled, SendCovered, AcksItsSends, Unix, Trim, Enqueue, Ack, Reschedule, DeliveryFailure, Replay,
         Replayable, Buffer, DueDigest, ClaimedEvent, Prepared;
    var t := Next(c, s, a);
    StepKeepsInv(c, s, a);
    StepKeepsHeldUnprocessed(c, s, a);
    forall i | 0 <= i < |s.hist.sends| ensures SendCovered(t, s.hist.sends[i]) {
      StepCoversSend(c, s, a, s.hist.sends[i]);
    }
    if a.Send? {
      NewSendIsCoveredAndSpaced(c, s, a);
    }
  }

  lemma NewSendIsCoveredAndSpaced(c: Config, s: State, a: Action)
    requires SendInv(c, s) && Enabled(c, s, a) && a.Send? && a.w == 0
    ensures var sends := Next(c, s, a).hist.sends;
            Spaced(sends) && SendCovered(Next(c, s, a), sends[|sends| - 1])
  {
    hide Inv, Unix, Trim;
  }

  lemma {:induction false} CarefulRunKeepsSendInv(c: Config, s: State, actions: seq<Action>)
    requires SendInv(c, s) && CarefulRun(c, s, actions)
    ensures SendInv(c, After(c, s, actions))
    decreases |actions|
  {
    hide SendInv, Enabled, Next, ByOneWorker, AcksItsSends;
    if actions != [] {
      StepKeepsSendInv(c, s, actions[0]);
      CarefulRunKeepsSendInv(c, Next(c, s, actions[0]), actions[1..]);
    }
  }

  /** One worker that acks its sends never delivers an event twice within seven days, whatever is enqueued again,
      replayed or expired in between. */
  lemma AtMostOneSendInSevenDays(c: Config, start: nat, actions: seq<Action>)
    requires CarefulRun(c, Start(start), actions)
    ensures Spaced(After(c, Start(start), actions).hist.sends)
  {
    CarefulRunKeepsSendInv(c, Start(start), actions);
  }

  lemma ReclaimSends(c: Config, s: State, id: string)
    requires Inv(c, s) && PhaseOf(s, 0).Idle? && s.db.pending.Keys == {id} && s.db.pending[id].availableAt <= Unix(s.now)
    ensures var again := [ClaimNext(0, id), Send(0)];
            Run(c, s, again) && After(c, s, again).hist.sends == s.hist.sends + [Sending(id, s.now)]
  {
    hide ClaimedEvent, RowsOk, Unix, Disjoint, WorkersOk, LeaseEnd, Run, After;
    assert id in s.db.pending;
    ClaimedIsOk(c, s.db, id);
    assert Claimable(s.db, id, Unix(s.now));
    NoSteps(c, Next(c, Next(c, s, ClaimNext(0, id)), Send(0)));
    TwoSteps(c, s, ClaimNext(0, id), Send(0), []);
    assert [ClaimNext(0, id), Send(0)] + [] == [ClaimNext(0, id), Send(0)];
  }

  lemma CrashAndWait(c: Config, s: State, wait: nat, rest: seq<Action>)
    requires var later := s.(workers := s.workers[0 := Idle], now := s.now + wait); Run(c, later, rest)
    ensures var later := s.(workers := s.workers[0 := Idle], now := s.now + wait);
            Run(c, s, [Crash(0), Tick(wait)] + rest) && After(c, s, [Crash(0), Tick(wait)] + rest) == After(c, later, rest)
  {
    hide Run, After;
    TwoSteps(c, s, Crash(0), Tick(wait), rest);
  }

  /** The ack is needed: a worker that crashes between send and ack delivers the event again as soon as its lease has run out. */
  lemma CrashAfterSendRepeats(c: Config, s: State, id: string, wait: nat)
    requires Inv(c, s) && PhaseOf(s, 0).Delivered? && s.db.pending.Keys == {id}
    requires s.hist.sends != [] && s.hist.sends[|s.hist.sends| - 1] == Sending(id, s.now)
    requires s.db.pending[id].availableAt <= Unix(s.now + wait) && wait <= SEVEN_DAYS
    ensures var actions := [Crash(0), Tick(wait)] + [ClaimNext(0, id), Send(0)];
            && Run(c, s, actions) && After(c, s, actions).hist.sends == s.hist.sends + [Sending(id, s.now + wait)]
            && !Spaced(After(c, s, actions).hist.sends)
  {
    hide RowsOk, Unix, Disjoint, Next, Enabled, Run, After;
    ReclaimSends(c, s.(workers := s.workers[0 := Idle], now := s.now + wait), id);
    CrashAndWait(c, s, wait, [ClaimNext(0, id), Send(0)]);
    var sends := s.hist.sends + [Sending(id, s.now + wait)];
    assert sends[|sends| - 2].id == sends[|sends| - 1].id;
  }

  // ---- media dedupe ----

  /** An accepted fingerprint is still stored, at least as recent, or more than the window old. */
  predicate HashCovered(c: Config, s: State, acc: Acceptance) {
    || Unix(s.now) - Unix(acc.at) > c.dedupeWindow
    || (acc.key in s.db.dedupe && s.db.dedupe[acc.key] >= Unix(acc.at))
  }

  predicate MediaSpaced(c: Config, accepted: seq<Acceptance>) {
    forall i, j | 0 <= i < j < |accepted| && accepted[i].key == accepted[j].key && accepted[i].hashed && accepted[j].hashed ::
      Unix(accepted[j].at) - Unix(accepted[i].at) > c.dedupeWindow
  }

  predicate MediaInv(c: Config, s: State) {
    && s.now >= 0
    && (forall i | 0 <= i < |s.hist.accepted| && s.hist.accepted[i].hashed ::
          0 <= s.hist.accepted[i].at <= s.now && HashCovered(c, s, s.hist.accepted[i]))
    && MediaSpaced(c, s.hist.accepted)
  }

  /** An enqueue drops only fingerprints older than the window and never moves one back in time. */
  lemma EnqueueCoversHash(c: Config, db: Db, event: MediaEvent, now: int, acc: Acceptance)
    requires 0 <= acc.at <= now
    requires acc.key in db.dedupe && db.dedupe[acc.key] >= Unix(acc.at)
    ensures var after := Enqueue(db, event, now, c.dedupeWindow).0;
            Unix(now) - Unix(acc.at) > c.dedupeWindow || (acc.key in after.dedupe && after.dedupe[acc.key] >= Unix(acc.at))
  {
    hide Trim, Prepared;
    UnixMonotone(acc.at, now);
    UnixMonotone(0, acc.at);
  }

  lemma StepCoversHash(c: Config, s: State, a: Action, acc: Acceptance)
    requires Enabled(c, s, a) && 0 <= acc.at <= s.now && HashCovered(c, s, acc)
    ensures HashCovered(c, Next(c, s, a), acc)
  {
    hide Trim, Enqueue, Ack, Reschedule, DeliveryFailure, Replay, Replayable, Buffer, DueDigest, Unix, ClaimedEvent,
         Claimable, Prepared, FreshRow;
    UnixMonotone(s.now, Next(c, s, a).now);
    if acc.key in s.db.dedupe && s.db.dedupe[acc.key] >= Unix(acc.at) {
      if a.Produce? { EnqueueCoversHash(c, s.db, a.event, s.now, acc); }
      UnixShift(s.now, -c.dedupeWindow);
    }
  }

  /** A newly accepted fingerprint is stored and is no live duplicate of an earlier one. */
  lemma AcceptedHashIsNew(c: Config, db: Db, event: MediaEvent, now: int, acc: Acceptance)
    requires Enqueue(db, event, now, c.dedupeWindow).1 == Accepted && HasHash(Prepared(event)) && now >= 0
    ensures var e := Prepared(event); var after := Enqueue(db, event, now, c.dedupeWindow).0;
            && HashOf(e) in after.dedupe && after.dedupe[HashOf(e)] == Unix(now)
            && (acc.key == HashOf(e) && 0 <= acc.at && acc.key in db.dedupe && db.dedupe[acc.key] >= Unix(acc.at) ==>
                  Unix(now) - Unix(acc.at) > c.dedupeWindow)
  {
    hide Trim, Prepared;
    if acc.at >= 0 { UnixMonotone(0, acc.at); }
  }

  lemma StepKeepsMediaInv(c: Config, s: State, a: Action)
    requires MediaInv(c, s) && Enabled(c, s, a)
    ensures MediaInv(c, Next(c, s, a))
  {
    hide Trim, Enqueue, Ack, Reschedule, DeliveryFailure, Replay, Replayable, Buffer, DueDigest, Unix, ClaimedEvent,
         Claimable, Prepared, FreshRow, HashCovered, HasHash;
    var t := Next(c, s, a);
    forall i | 0 <= i < |s.hist.accepted| && s.hist.accepted[i].hashed ensures HashCovered(c, t, s.hist.accepted[i]) {
      StepCoversHash(c, s, a, s.hist.accepted[i]);
    }
    if a.Produce? && Enqueue(s.db, a.event, s.now, c.dedupeWindow).1 == Accepted && HasHash(Prepared(a.event)) {
      NewMediaIsSpaced(c, s, a.event);
    }
  }

  lemma NewMediaIsSpaced(c: Config, s: State, event: MediaEvent)
    requires MediaInv(c, s) && Enqueue(s.db, event, s.now, c.dedupeWindow).1 == Accepted && HasHash(Prepared(event))
    ensures var acc := Acceptance(HashOf(Prepared(event)), true, s.now);
            HashCovered(c, AfterProduce(c, s, event), acc) && MediaSpaced(c, s.hist.accepted + [acc])
  {
    hide Trim, Enqueue, Unix, Prepared, FreshRow, HasHash;
    var acc := Acceptance(HashOf(Prepared(event)), true, s.now);
    AcceptedHashIsNew(c, s.db, event, s.now, acc);
    forall i | 0 <= i < |s.hist.accepted| && s.hist.accepted[i].hashed && s.hist.accepted[i].key == acc.key
      ensures Unix(acc.at) - Unix(s.hist.accepted[i].at) > c.dedupeWindow
    {
      AcceptedHashIsNew(c, s.db, event, s.now, s.hist.accepted[i]);
    }
  }

  lemma {:induction false} RunKeepsMediaInv(c: Config, s: State, actions: seq<Action>)
    requires MediaInv(c, s) && Run(c, s, actions)
    ensures MediaInv(c, After(c, s, actions))
    decreases |actions|
  {
    hide MediaInv, Enabled, Next;
    if actions != [] {
      StepKeepsMediaInv(c, s, actions[0]);
      RunKeepsMediaInv(c, Next(c, s, actions[0]), actions[1..]);
    }
  }

  /** In every run two accepted events with the same route and fingerprint are more than the window apart, retention or not. */
  lemma SameMediaIsSpaced(c: Config, start: nat, actions: seq<Action>)
    requires Run(c, Start(start), actions)
    ensures MediaSpaced(c, After(c, Start(start), actions).hist.accepted)
  {
    RunKeepsMediaInv(c, Start(start), actions);
  }
}
