/** What a worker is handed, and therefore sends, is what some producer submitted. */
module Payload {
  import opened Clock
  import opened Machine
  import opened Models
  import opened Safety
  import opened Tables
  import opened Text
  import Backoff

  predicate Accepts(c: Config, s: State, a: Action, id: string)
    ensures Accepts(c, s, a, id) ==> a.Produce?
  {
    a.Produce? && Trim(a.event.eventId) == id && Enqueue(s.db, a.event, s.now, c.dedupeWindow).1 == Accepted
  }

  /** The events accepted under an id along a run, in order. */
  function Submitted(c: Config, s: State, actions: seq<Action>, id: string): seq<MediaEvent>
    requires Run(c, s, actions)
    decreases |actions|
  {
    if actions == [] then []
    else
      (if Accepts(c, s, actions[0], id) then [actions[0].event] else [])
      + Submitted(c, Next(c, s, actions[0]), actions[1..], id)
  }

  /** One of the events is carried, field by field. */
  predicate FromOne(payload: MediaEvent, events: seq<MediaEvent>) {
    exists i | 0 <= i < |events| :: Carries(payload, events[i])
  }

  lemma FromMore(payload: MediaEvent, events: seq<MediaEvent>, more: seq<MediaEvent>)
    ensures FromOne(payload, events) ==> FromOne(payload, events + more)
    ensures FromOne(payload, more) ==> FromOne(payload, events + more)
  {
    hide Carries;
    var all := events + more;
    if i :| 0 <= i < |events| && Carries(payload, events[i]) {
      assert all[i] == events[i];
    }
    if i :| 0 <= i < |more| && Carries(payload, more[i]) {
      assert all[|events| + i] == more[i];
    }
  }

  /** What the tables store under an id comes from these events. */
  predicate Stored(db: Db, id: string, events: seq<MediaEvent>) {
    && (id in db.pending ==> FromOne(db.pending[id].payload, events))
    && (forall k | k in db.dead && db.dead[k].eventId == id :: FromOne(db.dead[k].payload, events))
  }

  /** What workers hold under an id comes from these events. */
  predicate Held(s: State, id: string, events: seq<MediaEvent>) {
    forall w | w in s.workers && !s.workers[w].Idle? && s.workers[w].q.event.eventId == id :: FromOne(s.workers[w].q.event, events)
  }

  // ---- one step ----

  lemma RescheduleKeepsPayload(db: Db, id: string, retryCount: int, next: int, reason: string, k: string)
    requires k in Reschedule(db, id, retryCount, next, reason).pending
    ensures k in db.pending && Reschedule(db, id, retryCount, next, reason).pending[k].payload == db.pending[k].payload
  {
    hide Reschedule, Trim;
    if k == Trim(id) && k == "" { assert Reschedule(db, id, retryCount, next, reason) == db; }
  }

  lemma FailureKeepsPayload(c: Config, db: Db, q: QueuedEvent, reason: string, now: int, k: string)
    requires q.retryCount >= 0 && k in DeliveryFailure(c, db, q, reason, now).pending
    ensures k in db.pending && DeliveryFailure(c, db, q, reason, now).pending[k].payload == db.pending[k].payload
  {
    hide Reschedule, MoveToDead, Trim, FailureText;
    if q.retryCount + 1 <= c.maxRetries {
      RescheduleKeepsPayload(db, q.event.eventId, q.retryCount + 1, now + Backoff.Delay(c.retryBase, q.retryCount + 1), FailureText(reason), k);
    }
  }

  lemma HolderKeepsPayload(c: Config, s: State, a: Action, id: string)
    requires Enabled(c, s, a) && (a.Filter? || a.AckHeld? || a.Fail? || a.RateLimited?) && id in Next(c, s, a).db.pending
    ensures id in s.db.pending && Next(c, s, a).db.pending[id].payload == s.db.pending[id].payload
  {
    hide Ack, Reschedule, DeliveryFailure, Trim;
    var q := PhaseOf(s, a.w).q;
    if a.Fail? {
      FailureKeepsPayload(c, s.db, q, a.reason, s.now, id);
    } else if a.RateLimited? {
      RescheduleKeepsPayload(s.db, q.event.eventId, q.retryCount, s.now + 5 * SECOND, "rate limited", id);
    }
  }

  lemma ReplayKeepsPayload(db: Db, letter: nat, targetPlatform: string, targetId: string, now: int, id: string)
    requires id in Replay(db, letter, targetPlatform, targetId, now).pending
    ensures var row := Replay(db, letter, targetPlatform, targetId, now).pending[id];
            if id in db.pending then row.payload == db.pending[id].payload
            else letter in db.dead && db.dead[letter].eventId == id && row.payload == db.dead[letter].payload
  {
    hide Replay, ReplayedRow, Trim;
    assert Replayable(db, letter, targetPlatform, targetId) ==> letter in db.dead;
    hide Replayable;
  }

  lemma EnqueueKeepsPayload(c: Config, s: State, event: MediaEvent, id: string)
    requires !Accepts(c, s, Produce(event), id) && id in AfterProduce(c, s, event).db.pending
    ensures id in s.db.pending && AfterProduce(c, s, event).db.pending[id].payload == s.db.pending[id].payload
  {
    hide Enqueue, Trim;
  }

  lemma ClaimKeepsPayload(c: Config, s: State, w: nat, claimed: string, id: string)
    requires Enabled(c, s, ClaimNext(w, claimed)) && id in Next(c, s, ClaimNext(w, claimed)).db.pending
    ensures id in s.db.pending && Next(c, s, ClaimNext(w, claimed)).db.pending[id].payload == s.db.pending[id].payload
  {
    hide Unix, NotAfter, LeaseEnd, ClaimedEvent;
  }

  /** A step that accepts nothing under an id keeps the payload of its event while that stays pending, be it claimed,
      rescheduled or replayed; one that becomes pending again has the payload of its dead letter. */
  lemma PendingPayload(c: Config, s: State, a: Action, id: string)
    requires Enabled(c, s, a) && !Accepts(c, s, a, id) && id in Next(c, s, a).db.pending
    ensures var payload := Next(c, s, a).db.pending[id].payload;
            if id in s.db.pending then payload == s.db.pending[id].payload
            else a.ReplayLetter? && a.letter in s.db.dead && s.db.dead[a.letter].eventId == id && payload == s.db.dead[a.letter].payload
  {
    if a.Produce? {
      hide AfterProduce, Accepts;
      EnqueueKeepsPayload(c, s, a.event, id);
    } else if a.ReplayLetter? {
      hide Replay, Replayable;
      ReplayKeepsPayload(s.db, a.letter, a.targetPlatform, a.targetId, s.now, id);
    } else {
      hide *;
      if a.Filter? || a.AckHeld? || a.Fail? || a.RateLimited? {
        HolderKeepsPayload(c, s, a, id);
      } else if a.ClaimNext? {
        ClaimKeepsPayload(c, s, a.w, a.id, id);
      } else {
        assert !UsesQueue(a) by { QueueUsers(a); }
        OtherStepsKeepPending(c, s, a);
      }
    }
  }

  lemma QueueUsers(a: Action)
    requires !a.Produce? && !a.ClaimNext? && !a.Filter? && !a.AckHeld? && !a.Fail? && !a.RateLimited? && !a.ReplayLetter?
    ensures !UsesQueue(a)
  {
  }

  lemma FailureLetter(c: Config, db: Db, q: QueuedEvent, reason: string, now: int, k: nat)
    requires RowsOk(c, db) && q.retryCount >= 0 && k in DeliveryFailure(c, db, q, reason, now).dead
    ensures var letter := DeliveryFailure(c, db, q, reason, now).dead[k];
            if k in db.dead then letter == db.dead[k]
            else letter.eventId in db.pending && letter.payload == db.pending[letter.eventId].payload
  {
    hide Reschedule, MoveToDead, Trim, FailureText, RowOk;
  }

  lemma OtherStepsAddNoLetter(c: Config, s: State, a: Action, k: nat)
    requires Enabled(c, s, a) && !a.Fail? && k in Next(c, s, a).db.dead
    ensures k in s.db.dead && Next(c, s, a).db.dead[k] == s.db.dead[k]
  {
    hide Enqueue, Ack, Reschedule, Replay, Replayable, Buffer, DueDigest, Unix, Claimable, LeaseEnd, ClaimedEvent, Trim, Prepared;
  }

  /** A letter keeps its payload, and a new one has that of the pending event it came from. */
  lemma LetterPayload(c: Config, s: State, a: Action, k: nat)
    requires RowsOk(c, s.db) && Enabled(c, s, a) && k in Next(c, s, a).db.dead
    ensures var letter := Next(c, s, a).db.dead[k];
            if k in s.db.dead then letter == s.db.dead[k]
            else letter.eventId in s.db.pending && letter.payload == s.db.pending[letter.eventId].payload
  {
    hide RowsOk, Enqueue, Ack, Reschedule, DeliveryFailure, Replay, Replayable, Buffer, DueDigest, Unix, Claimable, LeaseEnd, ClaimedEvent;
    if a.Fail? {
      FailureLetter(c, s.db, PhaseOf(s, a.w).q, a.reason, s.now, k);
    } else {
      OtherStepsAddNoLetter(c, s, a, k);
      hide Next, Enabled;
    }
  }

  lemma StepKeepsStored(c: Config, s: State, a: Action, id: string, events: seq<MediaEvent>)
    requires RowsOk(c, s.db) && Enabled(c, s, a) && Stored(s.db, id, events)
    ensures Stored(Next(c, s, a).db, id, events + if Accepts(c, s, a, id) then [a.event] else [])
  {
    var db, more := Next(c, s, a).db, if Accepts(c, s, a, id) then [a.event] else [];
    hide RowsOk, Enabled, Next, FromOne;
    if id in db.pending {
      if Accepts(c, s, a, id) {
        AcceptedIsCarried(c, s, a, id);
        FromMore(db.pending[id].payload, events, more);
      } else {
        PendingPayload(c, s, a, id);
        FromMore(db.pending[id].payload, events, more);
      }
    }
    forall k | k in db.dead && db.dead[k].eventId == id ensures FromOne(db.dead[k].payload, events + more) {
      LetterPayload(c, s, a, k);
      FromMore(db.dead[k].payload, events, more);
    }
  }

  lemma AcceptedIsCarried(c: Config, s: State, a: Action, id: string)
    requires Enabled(c, s, a) && Accepts(c, s, a, id)
    ensures id in Next(c, s, a).db.pending && FromOne(Next(c, s, a).db.pending[id].payload, [a.event])
  {
    AcceptedRow(s.db, a.event, s.now, c.dedupeWindow);
    hide Enqueue, Carries, Trim, Unix;
    assert [a.event][0] == a.event;
  }

  // ---- runs ----

  lemma {:induction false} RunKeepsStored(c: Config, s: State, actions: seq<Action>, id: string, events: seq<MediaEvent>)
    requires Inv(c, s) && Run(c, s, actions) && Stored(s.db, id, events)
    ensures Stored(After(c, s, actions).db, id, events + Submitted(c, s, actions, id))
    decreases |actions|
  {
    hide Inv, Enabled, Next, Stored, Accepts;
    if actions == [] {
      assert events + [] == events;
    } else {
      var next, more := Next(c, s, actions[0]), if Accepts(c, s, actions[0], id) then [actions[0].event] else [];
      StepKeepsInv(c, s, actions[0]);
      assert RowsOk(c, s.db) by { InvRows(c, s); }
      StepKeepsStored(c, s, actions[0], id, events);
      RunKeepsStored(c, next, actions[1..], id, events + more);
      assert events + (more + Submitted(c, next, actions[1..], id)) == events + more + Submitted(c, next, actions[1..], id);
    }
  }

  lemma InvRows(c: Config, s: State)
    requires Inv(c, s)
    ensures RowsOk(c, s.db)
  {
  }

  /** In every run from an empty database, what a worker claims under an id is, field by field, an event that was accepted
      under that id, through all claims, retries, dead letters and replays in between. */
  lemma ClaimedWasSubmitted(c: Config, start: nat, actions: seq<Action>, w: nat, id: string)
    requires Run(c, Start(start), actions) && Enabled(c, After(c, Start(start), actions), ClaimNext(w, id))
    ensures var t := After(c, Start(start), actions);
            && id in t.db.pending
            && FromOne(ClaimedEvent(id, t.db.pending[id]).event, Submitted(c, Start(start), actions, id))
  {
    var t := After(c, Start(start), actions);
    RunKeepsInv(c, Start(start), actions);
    RunKeepsStored(c, Start(start), actions, id, []);
    ClaimIsStored(c, t, id, [] + Submitted(c, Start(start), actions, id));
    assert [] + Submitted(c, Start(start), actions, id) == Submitted(c, Start(start), actions, id);
  }

  lemma ClaimIsStored(c: Config, t: State, id: string, events: seq<MediaEvent>)
    requires Inv(c, t) && Stored(t.db, id, events) && Claimable(t.db, id, Unix(t.now))
    ensures id in t.db.pending && FromOne(ClaimedEvent(id, t.db.pending[id]).event, events)
  {
    ClaimReturnsPayload(id, t.db.pending[id]);
    hide ClaimedEvent, FromOne;
  }

  /** A run that accepts nothing under the id gets from one state to the other. */
  predicate LeadsTo(c: Config, s: State, actions: seq<Action>, t: State, id: string)
    ensures LeadsTo(c, s, actions, t, id) ==> Run(c, s, actions)
  {
    Run(c, s, actions) && After(c, s, actions) == t && Submitted(c, s, actions, id) == []
  }

  lemma LeadsToStored(c: Config, s: State, actions: seq<Action>, t: State, id: string, events: seq<MediaEvent>)
    requires Inv(c, s) && Stored(s.db, id, events) && LeadsTo(c, s, actions, t, id)
    ensures Inv(c, t) && Stored(t.db, id, events)
  {
    hide Inv, Stored, Submitted, Run, After;
    RunKeepsInv(c, s, actions);
    RunKeepsStored(c, s, actions, id, events);
    assert events + [] == events;
  }

  /** An event accepted while no letter has its id is claimed with just its own content, as long as no other event is
      accepted under the id. */
  lemma ClaimedIsTheAccepted(c: Config, s: State, event: MediaEvent, actions: seq<Action>, t: State, id: string)
    requires Inv(c, s) && Accepts(c, s, Produce(event), id) && forall k | k in s.db.dead :: s.db.dead[k].eventId != id
    requires LeadsTo(c, AfterProduce(c, s, event), actions, t, id) && Claimable(t.db, id, Unix(t.now))
    ensures id in t.db.pending && Carries(ClaimedEvent(id, t.db.pending[id]).event, event)
  {
    ProduceKeepsInv(c, s, event);
    AcceptedAlone(c, s, event, id);
    LeadsToStored(c, AfterProduce(c, s, event), actions, t, id, [event]);
    hide AfterProduce, Inv, Stored, Accepts, Carries, ClaimedEvent, LeadsTo, Claimable;
    ClaimIsStored(c, t, id, [event]);
    assert [event][0] == event;
  }

  lemma ProduceKeepsInv(c: Config, s: State, event: MediaEvent)
    requires Inv(c, s)
    ensures Inv(c, AfterProduce(c, s, event))
  {
    StepKeepsInv(c, s, Produce(event));
    hide Inv, AfterProduce;
  }

  lemma AcceptedAlone(c: Config, s: State, event: MediaEvent, id: string)
    requires Accepts(c, s, Produce(event), id) && forall k | k in s.db.dead :: s.db.dead[k].eventId != id
    ensures Stored(AfterProduce(c, s, event).db, id, [event])
  {
    AcceptedIsCarried(c, s, Produce(event), id);
    hide Enqueue, FromOne, Trim;
  }

  // ---- what workers hold ----

  lemma StepKeepsHeld(c: Config, s: State, a: Action, id: string, events: seq<MediaEvent>)
    requires RowsOk(c, s.db) && Enabled(c, s, a) && Stored(s.db, id, events) && Held(s, id, events)
    ensures Held(Next(c, s, a), id, events)
  {
    hide FromOne, RowOk, Enqueue, Ack, Reschedule, DeliveryFailure, Replay, Replayable, Buffer, DueDigest, Unix, NotAfter, LeaseEnd, ClaimedEvent;
    if a.ClaimNext? {
      ClaimReturnsPayload(a.id, s.db.pending[a.id]);
      ClaimedIsOk(c, s.db, a.id);
    }
  }

  lemma HeldFromMore(s: State, id: string, events: seq<MediaEvent>, more: seq<MediaEvent>)
    requires Held(s, id, events)
    ensures Held(s, id, events + more)
  {
    hide FromOne;
    forall w | w in s.workers && !s.workers[w].Idle? && s.workers[w].q.event.eventId == id
      ensures FromOne(s.workers[w].q.event, events + more)
    {
      FromMore(s.workers[w].q.event, events, more);
    }
  }

  lemma {:induction false} RunKeepsHeld(c: Config, s: State, actions: seq<Action>, id: string, events: seq<MediaEvent>)
    requires Inv(c, s) && Run(c, s, actions) && Stored(s.db, id, events) && Held(s, id, events)
    ensures Held(After(c, s, actions), id, events + Submitted(c, s, actions, id))
    decreases |actions|
  {
    hide Inv, Enabled, Next, Stored, Held, Accepts;
    if actions == [] {
      assert events + [] == events;
    } else {
      var next, more := Next(c, s, actions[0]), if Accepts(c, s, actions[0], id) then [actions[0].event] else [];
      StepKeepsInv(c, s, actions[0]);
      assert RowsOk(c, s.db) by { InvRows(c, s); }
      StepKeepsStored(c, s, actions[0], id, events);
      StepKeepsHeld(c, s, actions[0], id, events);
      HeldFromMore(next, id, events, more);
      RunKeepsHeld(c, next, actions[1..], id, events + more);
      assert events + (more + Submitted(c, next, actions[1..], id)) == events + more + Submitted(c, next, actions[1..], id);
    }
  }

  /** So whatever any worker, stale or not, is about to send was submitted under its id just so. */
  lemma HeldWasSubmitted(c: Config, start: nat, actions: seq<Action>, w: nat)
    requires Run(c, Start(start), actions) && !PhaseOf(After(c, Start(start), actions), w).Idle?
    ensures var event := PhaseOf(After(c, Start(start), actions), w).q.event;
            FromOne(event, Submitted(c, Start(start), actions, event.eventId))
  {
    var id := PhaseOf(After(c, Start(start), actions), w).q.event.eventId;
    RunKeepsHeld(c, Start(start), actions, id, []);
    assert [] + Submitted(c, Start(start), actions, id) == Submitted(c, Start(start), actions, id);
    hide FromOne, Submitted;
  }
}
