/** What every step keeps: one place per event, retry bounds, and no event lost. */
module Safety {
  import Backoff
  import opened Clock
  import opened Machine
  import opened Models
  import opened Tables
  import opened Text

  predicate QueuedOk(c: Config, q: QueuedEvent) {
    Trim(q.event.eventId) == q.event.eventId != "" && 0 <= q.retryCount <= c.maxRetries
  }

  /** The invariant of every reachable state, for any number of workers, stale ones included. */
  predicate Inv(c: Config, s: State) {
    && s.now >= 0
    && RowsOk(c, s.db)
    && Disjoint(s.db)
    && WorkersOk(c, s)
  }

  predicate WorkersOk(c: Config, s: State) {
    forall w | w in s.workers && !s.workers[w].Idle? :: QueuedOk(c, s.workers[w].q)
  }

  lemma EnqueueKeeps(c: Config, db: Db, event: MediaEvent, now: int)
    requires RowsOk(c, db) && Disjoint(db)
    ensures var after := Enqueue(db, event, now, c.dedupeWindow).0; RowsOk(c, after) && Disjoint(after)
  {
    hide Trim, Unix, Enqueue;
    var e := Prepared(event);
    if Complete(e) {
      assert RowOk(e.eventId, e.route, e);
    }
  }

  lemma AckKeeps(c: Config, db: Db, id: string, now: int)
    requires RowsOk(c, db) && Disjoint(db)
    ensures RowsOk(c, Ack(db, id, now)) && Disjoint(Ack(db, id, now))
  {
    hide Trim, Unix, RowOk, Ack;
  }

  lemma RescheduleKeeps(c: Config, db: Db, id: string, retryCount: int, next: int, reason: string)
    requires RowsOk(c, db) && Disjoint(db) && 0 <= retryCount <= c.maxRetries
    ensures RowsOk(c, Reschedule(db, id, retryCount, next, reason)) && Disjoint(Reschedule(db, id, retryCount, next, reason))
  {
    hide Trim, Unix, RowOk, Reschedule;
  }

  lemma MoveKeeps(c: Config, db: Db, id: string, reason: string, now: int)
    requires RowsOk(c, db) && Disjoint(db)
    ensures RowsOk(c, MoveToDead(db, id, reason, now)) && Disjoint(MoveToDead(db, id, reason, now))
  {
    hide Trim, Unix, RowOk, MoveToDead;
  }

  lemma ReplayKeeps(c: Config, db: Db, letter: nat, targetPlatform: string, targetId: string, now: int)
    requires RowsOk(c, db) && Disjoint(db)
    ensures var after := Replay(db, letter, targetPlatform, targetId, now); RowsOk(c, after) && Disjoint(after)
  {
    hide Trim, Unix, RowOk, Replay;
  }

  lemma FailureKeeps(c: Config, db: Db, q: QueuedEvent, reason: string, now: int)
    requires RowsOk(c, db) && Disjoint(db) && QueuedOk(c, q)
    ensures var after := DeliveryFailure(c, db, q, reason, now); RowsOk(c, after) && Disjoint(after)
  {
    hide Trim, RowOk, RowsOk, Disjoint, MoveToDead, Reschedule;
    if q.retryCount + 1 > c.maxRetries {
      MoveKeeps(c, db, q.event.eventId, FailureText(reason), now);
    } else {
      var delay := Backoff.Delay(c.retryBase, q.retryCount + 1);
      RescheduleKeeps(c, db, q.event.eventId, q.retryCount + 1, now + delay, FailureText(reason));
    }
  }

  lemma ClaimedIsOk(c: Config, db: Db, id: string)
    requires RowsOk(c, db) && id in db.pending
    ensures QueuedOk(c, ClaimedEvent(id, db.pending[id]))
    ensures ClaimedEvent(id, db.pending[id]).event.eventId == id
    ensures ClaimedEvent(id, db.pending[id]).retryCount == db.pending[id].retryCount
  {
    ClaimReturnsPayload(id, db.pending[id]);
  }

  lemma StepKeepsWorkers(c: Config, s: State, a: Action)
    requires RowsOk(c, s.db) && WorkersOk(c, s) && Enabled(c, s, a)
    ensures WorkersOk(c, Next(c, s, a))
  {
    hide RowsOk, QueuedOk, Enqueue, Ack, Reschedule, MoveToDead, Replay, Replayable, DeliveryFailure, Prepared,
         Buffer, ClaimedEvent, NotAfter, DueDigest, Unix;
    if a.ClaimNext? { ClaimedIsOk(c, s.db, a.id); }
  }

  lemma ClaimKeepsRows(c: Config, s: State, w: nat, id: string)
    requires RowsOk(c, s.db) && Disjoint(s.db) && Enabled(c, s, ClaimNext(w, id))
    ensures var db := Claim(s.db, id, s.now, c.lease); RowsOk(c, db) && Disjoint(db)
  {
    hide RowOk, LeaseEnd, NotAfter, Unix;
  }

  lemma HolderStepKeepsRows(c: Config, s: State, a: Action)
    requires RowsOk(c, s.db) && Disjoint(s.db) && WorkersOk(c, s) && Enabled(c, s, a)
    requires a.Filter? || a.AckHeld? || a.Fail? || a.RateLimited?
    ensures RowsOk(c, Next(c, s, a).db) && Disjoint(Next(c, s, a).db)
  {
    hide RowsOk, Disjoint, Ack, Reschedule, DeliveryFailure, WorkersOk, Unix;
    HeldIsOk(c, s, a.w);
    var q := PhaseOf(s, a.w).q;
    if a.Filter? || a.AckHeld? {
      AckKeeps(c, s.db, q.event.eventId, s.now);
    } else if a.Fail? {
      FailureKeeps(c, s.db, q, a.reason, s.now);
    } else {
      RescheduleKeeps(c, s.db, q.event.eventId, q.retryCount, s.now + 5 * SECOND, "rate limited");
    }
  }

  lemma RetentionKeepsRows(c: Config, s: State, a: Action)
    requires RowsOk(c, s.db) && Disjoint(s.db) && Enabled(c, s, a)
    requires a.ExpireProcessed? || a.ExpireDead? || a.ExpireDedupe? || a.ExpireDigest?
    ensures RowsOk(c, Next(c, s, a).db) && Disjoint(Next(c, s, a).db)
  {
    hide RowOk, Unix;
  }

  /** Steps that leave the pending, processed and dead-letter tables alone. */
  lemma OtherStepKeepsRows(c: Config, s: State, a: Action)
    requires RowsOk(c, s.db) && Disjoint(s.db) && Enabled(c, s, a)
    requires !a.Produce? && !a.ClaimNext? && !a.Filter? && !a.AckHeld? && !a.Fail? && !a.RateLimited? && !a.ReplayLetter?
    requires !a.ExpireProcessed? && !a.ExpireDead? && !a.ExpireDedupe? && !a.ExpireDigest?
    ensures RowsOk(c, Next(c, s, a).db) && Disjoint(Next(c, s, a).db)
  {
    hide RowOk, Buffer, DueDigest, Unix;
    var before, after := s.db, Next(c, s, a).db;
    assert after.pending == before.pending && after.processed == before.processed;
    assert after.dead == before.dead && after.nextDead == before.nextDead;
  }

  lemma StepKeepsRows(c: Config, s: State, a: Action)
    requires RowsOk(c, s.db) && Disjoint(s.db) && WorkersOk(c, s) && Enabled(c, s, a)
    ensures RowsOk(c, Next(c, s, a).db) && Disjoint(Next(c, s, a).db)
  {
    hide RowsOk, Disjoint, WorkersOk, Enqueue, Replay, Replayable, Claim, AfterAck, AfterFail, AfterRateLimit, Prepared, AfterBuffer,
         DueDigest, Unix, ClaimedEvent, NotAfter;
    match a
    case Produce(event) => EnqueueKeeps(c, s.db, event, s.now);
    case ClaimNext(w, id) => ClaimKeepsRows(c, s, w, id);
    case Filter(_) => HolderStepKeepsRows(c, s, a);
    case AckHeld(_) => HolderStepKeepsRows(c, s, a);
    case Fail(_, _) => HolderStepKeepsRows(c, s, a);
    case RateLimited(_) => HolderStepKeepsRows(c, s, a);
    case ReplayLetter(letter, tp, tid) => ReplayKeeps(c, s.db, letter, tp, tid, s.now);
    case ExpireProcessed(_) => RetentionKeepsRows(c, s, a);
    case ExpireDead(_) => RetentionKeepsRows(c, s, a);
    case ExpireDedupe(_) => RetentionKeepsRows(c, s, a);
    case ExpireDigest(_) => RetentionKeepsRows(c, s, a);
    case _ => OtherStepKeepsRows(c, s, a);
  }

  lemma StepKeepsInv(c: Config, s: State, a: Action)
    requires Inv(c, s) && Enabled(c, s, a)
    ensures Inv(c, Next(c, s, a))
  {
    hide RowsOk, Disjoint, WorkersOk, Enqueue, Ack, Reschedule, Replay, Replayable, DeliveryFailure, Buffer, DueDigest,
         Unix, ClaimedEvent;
    StepKeepsWorkers(c, s, a);
    StepKeepsRows(c, s, a);
  }

  lemma HeldIsOk(c: Config, s: State, w: nat)
    requires WorkersOk(c, s) && !PhaseOf(s, w).Idle?
    ensures QueuedOk(c, PhaseOf(s, w).q) && 0 <= PhaseOf(s, w).q.retryCount <= c.maxRetries
  {
  }

  lemma ClaimableIsOk(c: Config, s: State, id: string, second: int)
    requires Inv(c, s) && Claimable(s.db, id, second)
    ensures id in s.db.pending
    ensures var q := ClaimedEvent(id, s.db.pending[id]); q.retryCount == s.db.pending[id].retryCount >= 0 && q.event.eventId == id
  {
    hide RowsOk, NotAfter, ClaimedEvent;
    ClaimedIsOk(c, s.db, id);
  }

  lemma {:induction false} RunKeepsInv(c: Config, s: State, actions: seq<Action>)
    requires Inv(c, s) && Run(c, s, actions)
    ensures Inv(c, After(c, s, actions))
    decreases |actions|
  {
    hide Inv, Enabled, Next;
    if actions != [] {
      StepKeepsInv(c, s, actions[0]);
      RunKeepsInv(c, Next(c, s, actions[0]), actions[1..]);
    }
  }

  predicate HoldsId(s: State, w: nat, id: string) {
    !PhaseOf(s, w).Idle? && Trim(PhaseOf(s, w).q.event.eventId) == id
  }

  predicate ReplaysId(s: State, a: Action, id: string) {
    a.ReplayLetter? && Replayable(s.db, a.letter, a.targetPlatform, a.targetId) && s.db.dead[a.letter].eventId == id
  }

  /** The steps that may change the row of a pending event: its claim, its replay, and the steps of workers that hold it. */
  predicate Touches(s: State, a: Action, id: string) {
    match a
    case ClaimNext(_, k) => k == id
    case Filter(w) => HoldsId(s, w, id)
    case AckHeld(w) => HoldsId(s, w, id)
    case Fail(w, _) => HoldsId(s, w, id)
    case RateLimited(w) => HoldsId(s, w, id)
    case ReplayLetter(_, _, _) => ReplaysId(s, a, id)
    case _ => false
  }

  /** The steps that read or change the pending table at all. */
  predicate UsesQueue(a: Action) {
    a.Produce? || a.ClaimNext? || a.Filter? || a.AckHeld? || a.Fail? || a.RateLimited? || a.ReplayLetter?
  }

  lemma OtherStepsKeepPending(c: Config, s: State, a: Action)
    requires Enabled(c, s, a) && !UsesQueue(a)
    ensures Next(c, s, a).db.pending == s.db.pending
  {
    hide Buffer, DueDigest, Unix;
  }

  lemma UntouchedRowStays(c: Config, s: State, a: Action, id: string)
    requires Enabled(c, s, a) && id in s.db.pending && !Touches(s, a, id)
    ensures id in Next(c, s, a).db.pending && Next(c, s, a).db.pending[id] == s.db.pending[id]
  {
    hide Trim, Enqueue, Ack, Reschedule, DeliveryFailure, Replay, Replayable, ReplayedRow, Unix, ClaimedEvent, NotAfter,
         LeaseEnd, Prepared, FreshRow;
    if !UsesQueue(a) {
      hide Next;
      OtherStepsKeepPending(c, s, a);
    }
  }

  /** In every reachable state no event is both pending and processed, and every stored retry count is within the limit. */
  lemma NeverPendingAndProcessed(c: Config, start: nat, actions: seq<Action>)
    requires Run(c, Start(start), actions)
    ensures var db := After(c, Start(start), actions).db;
            && db.pending.Keys !! db.processed.Keys
            && (forall id | id in db.pending :: 0 <= db.pending[id].retryCount <= c.maxRetries)
  {
    RunKeepsInv(c, Start(start), actions);
  }

  /** A processed mark goes only by retention, and is only ever renewed. */
  lemma ProcessedMarkStays(c: Config, s: State, a: Action, id: string)
    requires Enabled(c, s, a) && id in s.db.processed
    ensures var db := Next(c, s, a).db;
            if a.ExpireProcessed? && id in a.ids then s.db.processed[id] < Unix(s.now - SEVEN_DAYS)
            else id in db.processed && (db.processed[id] == s.db.processed[id] || db.processed[id] == Unix(s.now))
  {
    hide Trim, Enqueue, Ack, Reschedule, DeliveryFailure, Replay, Buffer, DueDigest, Unix, ClaimedEvent, Claimable, Prepared;
  }

  /** A processed event is never claimed, and no late step of a stale worker, producer or operator brings it back: only
      retention lets go of it. */
  lemma ProcessedStaysProcessed(c: Config, s: State, a: Action, id: string)
    requires Inv(c, s) && Enabled(c, s, a) && id in s.db.processed
    ensures !(a.ClaimNext? && a.id == id)
    ensures var db := Next(c, s, a).db;
            id !in db.pending && (id in db.processed || (a.ExpireProcessed? && id in a.ids && s.db.processed[id] < Unix(s.now - SEVEN_DAYS)))
  {
    hide RowsOk, WorkersOk, Unix, DueDigest, NotAfter;
    assert id !in s.db.pending;
    var next := Next(c, s, a);
    ProcessedMarkStays(c, s, a, id);
    StepKeepsInv(c, s, a);
    if a.ExpireProcessed? { assert next.db.pending == s.db.pending; }
    hide Next, Enabled;
  }

  lemma RowIsNamed(c: Config, db: Db, id: string)
    requires RowsOk(c, db) && Disjoint(db) && id in db.pending
    ensures Trim(id) == id != "" && Trim("") == "" && id !in db.processed && db.nextDead !in db.dead
  {
  }

  /** Replaying the letter of a dead-lettered event undoes the move: the event is due at once, with a clean record, and
      the other rows are as before. */
  lemma MoveThenReplay(c: Config, db: Db, id: string, reason: string, now: int, later: int)
    requires RowsOk(c, db) && Disjoint(db) && id in db.pending
    ensures var moved := MoveToDead(db, id, reason, now); var back := Replay(moved, db.nextDead, "", "", later);
            && back.dead == db.dead && back.processed == db.processed
            && back.pending == db.pending[id := db.pending[id].(availableAt := Unix(later), retryCount := 0,
                                                                lastError := "replayed from dead letter", createdAt := Unix(later))]
  {
    hide Unix, Replay, MoveToDead, Trim, RowsOk, Disjoint;
    RowIsNamed(c, db, id);
    var row, moved := db.pending[id], MoveToDead(db, id, reason, now);
    assert moved.dead - {db.nextDead} == db.dead;
    assert ReplayedRow(moved, moved.dead[db.nextDead], Unix(later))
        == row.(availableAt := Unix(later), retryCount := 0, lastError := "replayed from dead letter", createdAt := Unix(later));
  }

  // ---- no event is lost ----

  /** The only steps that may take an id out of all tables: retention of an old enough last trace. */
  predicate Retires(s: State, a: Action, id: string) {
    || (a.ExpireProcessed? && id in a.ids && id in s.db.processed && s.db.processed[id] < Unix(s.now - SEVEN_DAYS))
    || (a.ExpireDead? && exists k | k in a.letters :: k in s.db.dead && s.db.dead[k].eventId == id && s.db.dead[k].failedAt < Unix(s.now - FOURTEEN_DAYS))
  }

  /** Each transaction on the queue keeps an id pending, moves it on, or leaves its other traces in place. */
  lemma QueueStepLosesNothing(c: Config, s: State, a: Action, id: string)
    requires Inv(c, s) && Enabled(c, s, a) && Known(s.db, id) && !a.ExpireProcessed? && !a.ExpireDead? && !a.ReplayLetter?
    ensures Known(Next(c, s, a).db, id)
  {
    hide RowOk, WorkersOk, Trim, Enqueue, Ack, Reschedule, DeliveryFailure, Replay, Buffer, DueDigest, Unix,
         ClaimedEvent, Live, NotAfter, Prepared;
    var before, after := s.db, Next(c, s, a).db;
    assert forall k | k in before.dead :: k != before.nextDead;
    if k :| k in before.dead && before.dead[k].eventId == id {
      assert k in after.dead && after.dead[k].eventId == id;
    } else if id in before.pending && id !in after.pending {
      assert id in after.processed || (before.nextDead in after.dead && after.dead[before.nextDead].eventId == id);
    }
  }

  lemma ReplayLosesNothing(db: Db, letter: nat, targetPlatform: string, targetId: string, now: int, id: string)
    requires Known(db, id)
    ensures Known(Replay(db, letter, targetPlatform, targetId, now), id)
  {
    hide Replay, Replayable, ReplayedRow;
    var after := Replay(db, letter, targetPlatform, targetId, now);
    if k :| k in db.dead && db.dead[k].eventId == id {
      assert k == letter || (k in after.dead && after.dead[k].eventId == id);
    }
  }

  lemma StepLosesNothing(c: Config, s: State, a: Action, id: string)
    requires Inv(c, s) && Enabled(c, s, a) && Known(s.db, id)
    ensures Known(Next(c, s, a).db, id) || Retires(s, a, id)
  {
    hide Inv, Replay, Unix;
    if a.ReplayLetter? {
      ReplayLosesNothing(s.db, a.letter, a.targetPlatform, a.targetId, s.now, id);
    } else if a.ExpireProcessed? || a.ExpireDead? {
      var after := Next(c, s, a).db;
      if k :| k in s.db.dead && s.db.dead[k].eventId == id {
        assert (a.ExpireDead? && k in a.letters) || (k in after.dead && after.dead[k].eventId == id);
      }
    } else {
      QueueStepLosesNothing(c, s, a, id);
    }
  }

  /** Along every run a known event stays known until some step retires an old enough trace of it. */
  lemma {:induction false} NoLoss(c: Config, s: State, actions: seq<Action>, id: string) returns (k: nat)
    requires Inv(c, s) && Run(c, s, actions) && Known(s.db, id)
    ensures k <= |actions|
    ensures forall j | 0 <= j <= k :: Run(c, s, actions[..j]) && Known(After(c, s, actions[..j]).db, id)
    ensures k == |actions| ==> Known(After(c, s, actions).db, id)
    ensures k < |actions| ==> Retires(After(c, s, actions[..k]), actions[k], id)
    ensures k < |actions| ==> Run(c, s, actions[..k + 1]) && !Known(After(c, s, actions[..k + 1]).db, id)
    decreases |actions|
  {
    hide Inv, Enabled, Next, Retires, Known;
    k := 0;
    assert actions[..0] == [];
    if actions != [] {
      StepLosesNothing(c, s, actions[0], id);
      var next := Next(c, s, actions[0]);
      if Known(next.db, id) {
        StepKeepsInv(c, s, actions[0]);
        var rest := NoLoss(c, next, actions[1..], id);
        k := rest + 1;
        forall j | 0 <= j <= k ensures Run(c, s, actions[..j]) && Known(After(c, s, actions[..j]).db, id) {
          if j > 0 { assert actions[..j][1..] == actions[1..][..j - 1]; }
        }
        assert actions[..k][1..] == actions[1..][..k - 1];
        if k < |actions| { assert actions[..k + 1][1..] == actions[1..][..k]; }
      } else {
        assert actions[..1][1..] == [];
      }
    }
  }

  /** An accepted event is known from then on. */
  lemma AcceptedIsKnown(c: Config, s: State, event: MediaEvent)
    requires Enqueue(s.db, event, s.now, c.dedupeWindow).1 == Accepted
    ensures Known(Next(c, s, Produce(event)).db, Trim(event.eventId))
  {
  }

  predicate MovedOn(db: Db, after: Db, id: string) {
    id in after.pending || id in after.processed || (db.nextDead in after.dead && after.dead[db.nextDead].eventId == id)
  }

  lemma HolderStepMovesOn(c: Config, s: State, a: Action, id: string)
    requires WorkersOk(c, s) && Enabled(c, s, a) && id in s.db.pending
    requires a.Filter? || a.AckHeld? || a.Fail? || a.RateLimited?
    ensures MovedOn(s.db, Next(c, s, a).db, id)
  {
    hide WorkersOk, Trim, Ack, Reschedule, DeliveryFailure, Unix;
    HeldIsOk(c, s, a.w);
  }

  lemma HandingOutKeepsPending(c: Config, s: State, a: Action, id: string)
    requires Enabled(c, s, a) && id in s.db.pending && (a.ClaimNext? || a.ReplayLetter?)
    ensures id in Next(c, s, a).db.pending
  {
    hide Trim, Replay, Replayable, ReplayedRow, Unix, ClaimedEvent, NotAfter, LeaseEnd;
  }

  /** A pending event leaves its table only into the processed or the dead-letter table; retention never touches it. */
  lemma PendingMovesOn(c: Config, s: State, a: Action, id: string)
    requires Inv(c, s) && Enabled(c, s, a) && id in s.db.pending
    ensures var db := Next(c, s, a).db;
            id in db.pending || id in db.processed || (s.db.nextDead in db.dead && db.dead[s.db.nextDead].eventId == id)
  {
    hide RowsOk, Disjoint, WorkersOk, Enabled, Next;
    if a.Filter? || a.AckHeld? || a.Fail? || a.RateLimited? {
      HolderStepMovesOn(c, s, a, id);
    } else if a.ClaimNext? || a.ReplayLetter? {
      HandingOutKeepsPending(c, s, a, id);
    } else {
      UntouchedRowStays(c, s, a, id);
    }
  }
}
