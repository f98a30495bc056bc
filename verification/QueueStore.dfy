/** The queue database: every transaction statement by statement, with rollback. */
module QueueStore {
  import opened Clock
  import opened Models
  import opened Tables
  import opened Text

  /** Some due row comes first in claim order. */
  lemma {:induction false} FirstDueExists(db: Db, ids: set<string>)
    requires ids <= db.pending.Keys && ids != {}
    ensures exists id | id in ids :: forall other | other in ids :: NotAfter(db.pending[id], db.pending[other])
    decreases ids
  {
    var id :| id in ids;
    var rest := ids - {id};
    if rest != {} {
      FirstDueExists(db, rest);
      var first :| first in rest && forall other | other in rest :: NotAfter(db.pending[first], db.pending[other]);
      var best := if NotAfter(db.pending[id], db.pending[first]) then id else first;
      assert forall other | other in ids :: NotAfter(db.pending[best], db.pending[other]);
    } else {
      assert ids == {id};
    }
  }

  class Store {
    var pending: map<string, PendingRow>
    var processed: map<string, int>
    var dead: map<nat, DeadRow>
    var nextDead: nat
    var dedupe: map<HashKey, int>
    var digest: map<string, DigestRow>

    constructor ()
      ensures Content() == EMPTY
    {
      pending, processed, dead, nextDead, dedupe, digest := map[], map[], map[], 1, map[], map[];
    }

    function Content(): Db
      reads this
    {
      Db(pending, processed, dead, nextDead, dedupe, digest)
    }

    /** tx.Rollback: every table is again what it was when the transaction began. */
    method Rollback(begin: Db)
      modifies this
      ensures Content() == begin
    {
      pending, processed, dead, nextDead, dedupe, digest :=
        begin.pending, begin.processed, begin.dead, begin.nextDead, begin.dedupe, begin.digest;
    }

    method EnqueuePendingEvent(event: MediaEvent, now: int, window: int) returns (outcome: EnqueueOutcome)
      modifies this
      ensures (Content(), outcome) == Enqueue(old(Content()), event, now, window)
      ensures outcome == Accepted ==>
                var id := Trim(event.eventId);
                && id in pending && Carries(pending[id].payload, event) && pending - {id} == old(pending)
                && pending[id].availableAt == (if event.availableAt > 0 then event.availableAt else Unix(now))
                && pending[id].retryCount == 0 && pending[id].createdAt == Unix(now)
    {
      var e := event.(eventId := Trim(event.eventId));
      if e.eventId == "" {
        return Refused;
      }
      e := e.(route := TrimRoute(event.route));
      if HasBlank(e.route) {
        return Refused;
      }
      var second := Unix(now);
      var availableAt := second;
      if e.availableAt > 0 {
        availableAt := e.availableAt;
      }

      var begin := Content();
      if e.eventId in processed {
        Rollback(begin);
        return Ignored;
      }
      var inserted := e.eventId !in pending;
      if inserted {
        pending := pending[e.eventId := PendingRow(e.route, e, availableAt, 0, "", second)];
      }
      if e.fileHash != "" {
        var recorded := RecordMediaDedupe(e, second, window);
        if !recorded {
          Rollback(begin);
          return Ignored;
        }
      } else {
        assert Trim("") == "";
      }
      outcome := if inserted then Accepted else Ignored;
      hide Carries, Unix, Trim;
      if inserted {
        AcceptedRow(begin, event, now, window);
      }
    }

    /** Purges expired fingerprints, then claims this one; false when a live one is already there. */
    method RecordMediaDedupe(event: MediaEvent, second: int, window: int) returns (recorded: bool)
      modifies this`dedupe
      ensures !HasHash(event) ==> recorded && dedupe == old(dedupe)
      ensures HasHash(event) ==> recorded == !Live(old(dedupe), HashOf(event), DedupeCutoff(second, window))
      ensures HasHash(event) && recorded ==> dedupe == Purged(old(dedupe), DedupeCutoff(second, window))[HashOf(event) := second]
      ensures HasHash(event) && recorded ==>
                && (event.route, event.fileHash) in dedupe && dedupe[(event.route, event.fileHash)] == second
                && forall key | key != (event.route, event.fileHash) ::
                     && (key in dedupe <==> key in old(dedupe) && old(dedupe)[key] >= second - window && old(dedupe)[key] >= 0)
                     && (key in dedupe ==> dedupe[key] == old(dedupe)[key])
    {
      if Trim(event.fileHash) == "" {
        return true;
      }
      var cutoff := second - window;
      if cutoff < 0 {
        cutoff := 0;
      }
      dedupe := map key | key in dedupe && !(dedupe[key] < cutoff) :: dedupe[key];
      if HashOf(event) in dedupe {
        return false;
      }
      dedupe := dedupe[HashOf(event) := second];
      return true;
    }

    /** Claims some first row in claim order, or none when no row is due. */
    method ClaimNextPendingEvent(now: int, lease: int) returns (found: bool, id: string, claimed: QueuedEvent)
      modifies this`pending
      ensures !found ==> Content() == old(Content()) && forall k | k in pending :: !Due(Content(), k, Unix(now))
      ensures found ==>
                && Claimable(old(Content()), id, Unix(now))
                && old(pending)[id].availableAt <= Unix(now)
                && (forall k | k in old(pending) && old(pending)[k].availableAt <= Unix(now) ::
                      var row, other := old(pending)[id], old(pending)[k];
                      row.availableAt < other.availableAt || (row.availableAt == other.availableAt && row.createdAt <= other.createdAt))
                && pending == old(pending)[id := old(pending)[id].(availableAt := Unix(now + if lease > 0 then lease else 30 * SECOND))]
                && claimed == ClaimedEvent(id, old(pending)[id])
                && Content() == Claim(old(Content()), id, now, lease)
    {
      var leaseTime := lease;
      if leaseTime <= 0 {
        leaseTime := 30 * SECOND;
      }
      id, claimed := "", QueuedEvent(MediaEvent("", Route("", "", "", ""), "", "", "", "", "", "", "", "", "", "", 0), 0);
      hide Unix, ClaimedEvent;
      var due := set k | k in pending && pending[k].availableAt <= Unix(now);
      assert forall k | k in pending && Due(Content(), k, Unix(now)) :: k in due;
      if due == {} {
        return false, id, claimed;
      }
      FirstDueExists(Content(), due);
      id :| id in due && forall other | other in due :: NotAfter(pending[id], pending[other]);
      var row := pending[id];
      pending := pending[id := row.(availableAt := Unix(now + leaseTime))];
      return true, id, ClaimedEvent(id, row);
    }

    method AckPendingEvent(eventId: string, now: int) returns (ok: bool)
      modifies this
      ensures ok == (Trim(eventId) != "")
      ensures Content() == Ack(old(Content()), eventId, now)
    {
      var id := Trim(eventId);
      if id == "" {
        return false;
      }
      processed := processed[id := Unix(now)];
      pending := pending - {id};
      return true;
    }

    method ReschedulePendingEvent(eventId: string, retryCount: int, next: int, reason: string) returns (ok: bool)
      modifies this
      ensures ok == (Trim(eventId) != "")
      ensures Content() == Reschedule(old(Content()), eventId, retryCount, next, reason)
    {
      var id := Trim(eventId);
      if id == "" {
        return false;
      }
      if id in pending {
        var row := pending[id];
        pending := pending[id := row.(retryCount := retryCount, availableAt := Unix(next), lastError := Trim(reason))];
      }
      return true;
    }

    method MovePendingEventToDeadLetter(eventId: string, reason: string, now: int) returns (letter: Option<nat>)
      modifies this
      ensures Content() == MoveToDead(old(Content()), eventId, reason, now)
      ensures letter == if Trim(eventId) in old(pending) && Trim(eventId) != "" then Some(old(nextDead)) else None
    {
      var id := Trim(eventId);
      if id == "" || id !in pending {
        return None;
      }
      var row := pending[id];
      letter := Some(nextDead);
      dead := dead[nextDead := DeadRow(id, row.route, row.payload, row.payload.fileName, row.retryCount, Trim(reason), Unix(now))];
      nextDead := nextDead + 1;
      pending := pending - {id};
    }

    method ReplayDeadLetter(letter: nat, targetPlatform: string, targetId: string, now: int) returns (replayed: bool)
      modifies this
      ensures replayed == Replayable(old(Content()), letter, targetPlatform, targetId)
      ensures Content() == Replay(old(Content()), letter, targetPlatform, targetId, now)
    {
      var begin := Content();
      if letter !in dead {
        Rollback(begin);
        return false;
      }
      var row := dead[letter];
      if Trim(targetPlatform) != "" && row.route.targetPlatform != Trim(targetPlatform) {
        Rollback(begin);
        return false;
      }
      if Trim(targetId) != "" && row.route.targetId != Trim(targetId) {
        Rollback(begin);
        return false;
      }
      if row.eventId in processed {
        dead := dead - {letter};
        return true;
      }
      var second := Unix(now);
      if row.eventId in pending {
        var existing := pending[row.eventId];
        pending := pending[row.eventId := existing.(availableAt := second, retryCount := 0, lastError := "replayed from dead letter")];
      } else {
        pending := pending[row.eventId := PendingRow(row.route, row.payload, second, 0, "replayed from dead letter", second)];
      }
      dead := dead - {letter};
      return true;
    }

    method AddDigestEvent(event: MediaEvent, now: int, deliverAfter: int) returns (error: Option<string>)
      modifies this
      ensures error == DigestError(event)
      ensures Content() == Buffer(old(Content()), event, now, deliverAfter)
    {
      if Trim(event.eventId) == "" {
        return Some("event id is required");
      }
      if Trim(event.route.sourcePlatform) == "" || Trim(event.route.sourceId) == "" {
        return Some("source platform/id is required");
      }
      if Trim(event.route.targetPlatform) == "" || Trim(event.route.targetId) == "" {
        return Some("target platform/id is required");
      }
      var id := Trim(event.eventId);
      if id !in digest {
        digest := digest[id := DigestRow(TrimRoute(event.route), Trim(event.caption), Trim(event.fileName), Trim(event.mediaType),
                                         Unix(now), Unix(deliverAfter))];
      }
      return None;
    }

    method DeleteDigestEventsForGroup(route: Route, cutoff: int)
      modifies this`digest
      ensures digest == old(digest) - DueDigest(old(Content()), route, cutoff)
    {
      digest := map id | id in digest && !(digest[id].route == route && digest[id].deliverAfter <= cutoff) :: digest[id];
    }
  }
}
