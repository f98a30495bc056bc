/** The queue tables and, for each transaction on them, the state it leaves behind. */
module Tables {
  import opened Backoff
  import opened Clock
  import opened Models
  import opened Text

  datatype PendingRow = PendingRow(
    route: Route,
    payload: MediaEvent,
    availableAt: int,
    retryCount: int,
    lastError: string,
    createdAt: int)

  datatype DeadRow = DeadRow(
    eventId: string,
    route: Route,
    payload: MediaEvent,
    fileName: string,
    retryCount: int,
    reason: string,
    failedAt: int)

  datatype DigestRow = DigestRow(
    route: Route,
    caption: string,
    fileName: string,
    mediaType: string,
    createdAt: int,
    deliverAfter: int)

  type HashKey = (Route, string)

  /** pending_events, processed_events, dead_letters, media_dedupe and digest_events; all times are Unix seconds. */
  datatype Db = Db(
    pending: map<string, PendingRow>,
    processed: map<string, int>,
    dead: map<nat, DeadRow>,
    nextDead: nat,
    dedupe: map<HashKey, int>,
    digest: map<string, DigestRow>)

  const EMPTY := Db(map[], map[], map[], 1, map[], map[])

  /** maxDeliveryRetries, retryBaseDelay, processingLease and duplicateMediaWindow; durations in nanoseconds, the window
      in seconds. */
  datatype Config = Config(maxRetries: nat, retryBase: int, lease: int, dedupeWindow: int)

  // ---- enqueue ----

  datatype EnqueueOutcome = Accepted | Ignored | Refused

  function Prepared(event: MediaEvent): MediaEvent {
    event.(eventId := Trim(event.eventId), route := TrimRoute(event.route))
  }

  predicate Complete(event: MediaEvent) {
    event.eventId != "" && !HasBlank(event.route)
  }

  predicate HasHash(event: MediaEvent) {
    Trim(event.fileHash) != ""
  }

  function HashOf(event: MediaEvent): HashKey {
    (event.route, event.fileHash)
  }

  function DedupeCutoff(second: int, window: int): int {
    if second - window < 0 then 0 else second - window
  }

  /** A fingerprint still inside the duplicate window. */
  predicate Live(dedupe: map<HashKey, int>, key: HashKey, cutoff: int) {
    key in dedupe && dedupe[key] >= cutoff
  }

  function Purged(dedupe: map<HashKey, int>, cutoff: int): map<HashKey, int> {
    map key | key in dedupe && dedupe[key] >= cutoff :: dedupe[key]
  }

  function FreshRow(event: MediaEvent, second: int): PendingRow {
    PendingRow(event.route, event, if event.availableAt > 0 then event.availableAt else second, 0, "", second)
  }

  predicate IsDuplicateMedia(db: Db, event: MediaEvent, second: int, window: int) {
    HasHash(event) && Live(db.dedupe, HashOf(event), DedupeCutoff(second, window))
  }

  /** EnqueuePendingEvent as one atomic step. */
  function Enqueue(db: Db, event: MediaEvent, now: int, window: int): (r: (Db, EnqueueOutcome))
    ensures r.0 == db.(pending := r.0.pending, dedupe := r.0.dedupe)
    ensures r.1 == Accepted ==> var e := Prepared(event);
              && Complete(e) && e.eventId !in db.pending && e.eventId !in db.processed
              && r.0.pending == db.pending[e.eventId := FreshRow(e, Unix(now))]
    ensures r.1 != Accepted ==> r.0.pending == db.pending
  {
    var e, second := Prepared(event), Unix(now);
    if !Complete(e) then (db, Refused)
    else if e.eventId in db.processed || IsDuplicateMedia(db, e, second, window) then (db, Ignored)
    else
      var isNew := e.eventId !in db.pending;
      var pending := if isNew then db.pending[e.eventId := FreshRow(e, second)] else db.pending;
      var dedupe := if HasHash(e) then Purged(db.dedupe, DedupeCutoff(second, window))[HashOf(e) := second] else db.dedupe;
      (db.(pending := pending, dedupe := dedupe), if isNew then Accepted else Ignored)
  }

  // ---- claim ----

  datatype QueuedEvent = QueuedEvent(event: MediaEvent, retryCount: int)

  predicate Due(db: Db, id: string, second: int) {
    id in db.pending && db.pending[id].availableAt <= second
  }

  /** The claim order: availability first, then age. */
  predicate NotAfter(a: PendingRow, b: PendingRow) {
    a.availableAt < b.availableAt || (a.availableAt == b.availableAt && a.createdAt <= b.createdAt)
  }

  /** A row the claim query may return; ties are broken arbitrarily. */
  predicate Claimable(db: Db, id: string, second: int) {
    Due(db, id, second) && forall other | other in db.pending && Due(db, other, second) :: NotAfter(db.pending[id], db.pending[other])
  }

  /** A lease setting that is not positive means thirty seconds. */
  function LeaseTime(lease: int): (time: int)
    ensures time > 0
  {
    if lease <= 0 then 30 * SECOND else lease
  }

  function LeaseEnd(now: int, lease: int): int {
    Unix(now + LeaseTime(lease))
  }

  function Claim(db: Db, id: string, now: int, lease: int): Db
    requires id in db.pending
  {
    db.(pending := db.pending[id := db.pending[id].(availableAt := LeaseEnd(now, lease))])
  }

  function OrElse(field: string, column: string): string {
    if Trim(field) == "" then column else field
  }

  /** The claimed event: its payload, with blank fields taken from the row's columns. */
  function ClaimedEvent(id: string, row: PendingRow): QueuedEvent {
    var e, r, c := row.payload, row.payload.route, row.route;
    var route := Route(OrElse(r.sourcePlatform, c.sourcePlatform), OrElse(r.sourceId, c.sourceId),
                       OrElse(r.targetPlatform, c.targetPlatform), OrElse(r.targetId, c.targetId));
    QueuedEvent(e.(eventId := OrElse(e.eventId, id), route := route), row.retryCount)
  }

  // ---- ack, reschedule, dead letter, replay ----

  function Ack(db: Db, id: string, now: int): (r: Db)
    ensures r == db.(pending := r.pending, processed := r.processed)
    ensures Trim(id) != "" ==> r.pending == db.pending - {Trim(id)} && r.processed == db.processed[Trim(id) := Unix(now)]
    ensures Trim(id) == "" ==> r == db
  {
    if Trim(id) == "" then db
    else db.(processed := db.processed[Trim(id) := Unix(now)], pending := db.pending - {Trim(id)})
  }

  function Reschedule(db: Db, id: string, retryCount: int, next: int, reason: string): (r: Db)
    ensures r == db.(pending := r.pending) && r.pending.Keys == db.pending.Keys
    ensures Trim(id) == "" || Trim(id) !in db.pending ==> r == db
    ensures forall k | k in db.pending && k != Trim(id) :: r.pending[k] == db.pending[k]
    ensures Trim(id) in db.pending && Trim(id) != "" ==>
              var row := r.pending[Trim(id)];
              row == db.pending[Trim(id)].(retryCount := retryCount, availableAt := Unix(next), lastError := Trim(reason))
  {
    if Trim(id) == "" || Trim(id) !in db.pending then db
    else
      var row := db.pending[Trim(id)];
      db.(pending := db.pending[Trim(id) := row.(retryCount := retryCount, availableAt := Unix(next), lastError := Trim(reason))])
  }

  function MoveToDead(db: Db, id: string, reason: string, now: int): (r: Db)
    ensures r == db.(pending := r.pending, dead := r.dead, nextDead := r.nextDead)
    ensures Trim(id) == "" || Trim(id) !in db.pending ==> r == db
    ensures Trim(id) in db.pending && Trim(id) != "" ==>
              && r.pending == db.pending - {Trim(id)} && r.nextDead == db.nextDead + 1
              && r.dead.Keys == db.dead.Keys + {db.nextDead}
              && (forall k | k in db.dead && k != db.nextDead :: r.dead[k] == db.dead[k])
              && var letter := r.dead[db.nextDead]; var row := db.pending[Trim(id)];
                 letter == DeadRow(Trim(id), row.route, row.payload, row.payload.fileName, row.retryCount, Trim(reason), Unix(now))
  {
    if Trim(id) == "" || Trim(id) !in db.pending then db
    else
      var row := db.pending[Trim(id)];
      var letter := DeadRow(Trim(id), row.route, row.payload, row.payload.fileName, row.retryCount, Trim(reason), Unix(now));
      db.(dead := db.dead[db.nextDead := letter], nextDead := db.nextDead + 1, pending := db.pending - {Trim(id)})
  }

  /** A replay names the letter and may pin the target it belongs to. */
  predicate Replayable(db: Db, letter: nat, targetPlatform: string, targetId: string) {
    && letter in db.dead
    && (Trim(targetPlatform) != "" ==> db.dead[letter].route.targetPlatform == Trim(targetPlatform))
    && (Trim(targetId) != "" ==> db.dead[letter].route.targetId == Trim(targetId))
  }

  /** A queued event keeps its payload; only a missing one is restored from the letter. */
  function ReplayedRow(db: Db, row: DeadRow, second: int): (r: PendingRow)
    ensures r.availableAt == second && r.retryCount == 0 && r.lastError == "replayed from dead letter"
    ensures row.eventId in db.pending ==>
              var queued := db.pending[row.eventId]; r.payload == queued.payload && r.route == queued.route && r.createdAt == queued.createdAt
    ensures row.eventId !in db.pending ==> r.payload == row.payload && r.route == row.route && r.createdAt == second
  {
    if row.eventId in db.pending then
      db.pending[row.eventId].(availableAt := second, retryCount := 0, lastError := "replayed from dead letter")
    else PendingRow(row.route, row.payload, second, 0, "replayed from dead letter", second)
  }

  /** ReplayDeadLetter as one atomic step. */
  function Replay(db: Db, letter: nat, targetPlatform: string, targetId: string, now: int): (r: Db)
    ensures r == db.(pending := r.pending, dead := r.dead)
    ensures !Replayable(db, letter, targetPlatform, targetId) ==> r == db
    ensures Replayable(db, letter, targetPlatform, targetId) ==>
              var row := db.dead[letter];
              && r.dead == db.dead - {letter}
              && r.pending == if row.eventId in db.processed then db.pending
                              else db.pending[row.eventId := ReplayedRow(db, row, Unix(now))]
  {
    if !Replayable(db, letter, targetPlatform, targetId) then db
    else
      var row := db.dead[letter];
      var rest := db.(dead := db.dead - {letter});
      if row.eventId in db.processed then rest
      else rest.(pending := db.pending[row.eventId := ReplayedRow(db, row, Unix(now))])
  }

  /** A replay takes the letter exactly when it exists and no other target was named, and puts its event in the queue exactly
      when that is not processed: due at once, with a clean record, and with its queued content if it has one. */
  lemma ReplayExactly(db: Db, letter: nat, targetPlatform: string, targetId: string, now: int)
    ensures var after := Replay(db, letter, targetPlatform, targetId, now);
            if letter in db.dead && (Trim(targetPlatform) == "" || db.dead[letter].route.targetPlatform == Trim(targetPlatform))
               && (Trim(targetId) == "" || db.dead[letter].route.targetId == Trim(targetId)) then
              var id := db.dead[letter].eventId;
              && after.dead == db.dead - {letter} && after.pending - {id} == db.pending - {id}
              && (id in db.processed ==> after.pending == db.pending)
              && (id !in db.processed ==>
                    && id in after.pending
                    && var row := after.pending[id];
                       && row.availableAt == Unix(now) && row.retryCount == 0
                       && row.payload == if id in db.pending then db.pending[id].payload else db.dead[letter].payload)
            else after == db
  {
    hide Replay, ReplayedRow, Trim, Unix;
  }

  function FailureText(reason: string): string {
    if Trim(reason) == "" then "unknown delivery failure" else Trim(reason)
  }

  /** handleDeliveryFailure: one more retry, or the dead-letter table when the limit is used up. */
  function DeliveryFailure(c: Config, db: Db, q: QueuedEvent, reason: string, now: int): (r: Db)
    requires q.retryCount >= 0
    ensures r == db.(pending := r.pending, dead := r.dead, nextDead := r.nextDead)
    ensures r.pending.Keys <= db.pending.Keys
    ensures forall k | k in db.pending && k != Trim(q.event.eventId) :: k in r.pending && r.pending[k] == db.pending[k]
    ensures Trim(q.event.eventId) in db.pending && Trim(q.event.eventId) !in r.pending ==>
              db.nextDead in r.dead && r.dead[db.nextDead].eventId == Trim(q.event.eventId)
    ensures forall k | k in db.dead && k != db.nextDead :: k in r.dead && r.dead[k] == db.dead[k]
  {
    var nextRetry := q.retryCount + 1;
    if nextRetry > c.maxRetries then MoveToDead(db, q.event.eventId, FailureText(reason), now)
    else Reschedule(db, q.event.eventId, nextRetry, now + Delay(c.retryBase, nextRetry), FailureText(reason))
  }

  // ---- digest ----

  /** The delay processQueuedEvent gives a digest row: the configured minutes as an int64 duration, or a day. */
  function DigestInterval(minutes: int): (interval: int)
    ensures interval > 0
  {
    var interval := Wrap64(minutes * MINUTE);
    if interval <= 0 then DAY else interval
  }

  function DigestError(event: MediaEvent): Option<string> {
    var r := TrimRoute(event.route);
    if Trim(event.eventId) == "" then Some("event id is required")
    else if r.sourcePlatform == "" || r.sourceId == "" then Some("source platform/id is required")
    else if r.targetPlatform == "" || r.targetId == "" then Some("target platform/id is required")
    else None
  }

  /** AddDigestEvent inserts unless the event is already buffered. */
  function Buffer(db: Db, event: MediaEvent, now: int, deliverAfter: int): (r: Db)
    ensures r == db.(digest := r.digest)
    ensures r != db ==> var id := Trim(event.eventId);
              && id !in db.digest && id in r.digest && r.digest == db.digest[id := r.digest[id]]
              && r.digest[id].deliverAfter == Unix(deliverAfter)
  {
    var id := Trim(event.eventId);
    if id == "" || HasBlank(TrimRoute(event.route)) || id in db.digest then db
    else db.(digest := db.digest[id := DigestRow(TrimRoute(event.route), Trim(event.caption), Trim(event.fileName),
                                                 Trim(event.mediaType), Unix(now), Unix(deliverAfter))])
  }

  /** The ids of a group's rows due at a cutoff. */
  function DueDigest(db: Db, route: Route, cutoff: int): set<string> {
    set id | id in db.digest && db.digest[id].route == route && db.digest[id].deliverAfter <= cutoff
  }

  /** A buffered row holds the event's route, texts and name of the media, all trimmed, when it came and when it is due; an
      event already buffered, or one with a blank id or route, changes nothing. */
  lemma BufferedRow(db: Db, event: MediaEvent, now: int, deliverAfter: int)
    ensures var id, r, after := Trim(event.eventId), event.route, Buffer(db, event, now, deliverAfter);
            if id == "" || Trim(r.sourcePlatform) == "" || Trim(r.sourceId) == "" || Trim(r.targetPlatform) == "" || Trim(r.targetId) == ""
               || id in db.digest
            then after == db
            else after == db.(digest := db.digest[id := DigestRow(
              Route(Trim(r.sourcePlatform), Trim(r.sourceId), Trim(r.targetPlatform), Trim(r.targetId)),
              Trim(event.caption), Trim(event.fileName), Trim(event.mediaType), Unix(now), Unix(deliverAfter))])
  {
    hide Trim, Unix;
  }

  // ---- what the tables keep to ----

  /** Stored events are trimmed, complete and named like their row; retry counts stay in bounds. */
  predicate RowsOk(c: Config, db: Db) {
    && (forall id | id in db.pending :: RowOk(id, db.pending[id].route, db.pending[id].payload) && 0 <= db.pending[id].retryCount <= c.maxRetries)
    && (forall k | k in db.dead :: k < db.nextDead && RowOk(db.dead[k].eventId, db.dead[k].route, db.dead[k].payload))
  }

  predicate RowOk(id: string, route: Route, payload: MediaEvent) {
    Trim(id) == id != "" && Clean(route) && payload.eventId == id && payload.route == route
  }

  predicate Disjoint(db: Db) {
    forall id | id in db.pending :: id !in db.processed
  }

  /** The ids an operator can still find in some table. */
  predicate Known(db: Db, id: string) {
    id in db.pending || id in db.processed || exists k | k in db.dead :: db.dead[k].eventId == id
  }

  /** For stored rows the column fallback of the claim never applies. */
  lemma ClaimReturnsPayload(id: string, row: PendingRow)
    requires RowOk(id, row.route, row.payload)
    ensures ClaimedEvent(id, row) == QueuedEvent(row.payload, row.retryCount)
  {
    var r := row.route;
    assert Trim(r.sourcePlatform) == r.sourcePlatform && Trim(r.sourceId) == r.sourceId;
    assert Trim(r.targetPlatform) == r.targetPlatform && Trim(r.targetId) == r.targetId;
  }

  /** Every field of the submitted event, with only the id and the four parts of the route trimmed. */
  predicate Carries(payload: MediaEvent, event: MediaEvent) {
    && payload.eventId == Trim(event.eventId)
    && payload.route.sourcePlatform == Trim(event.route.sourcePlatform) && payload.route.sourceId == Trim(event.route.sourceId)
    && payload.route.targetPlatform == Trim(event.route.targetPlatform) && payload.route.targetId == Trim(event.route.targetId)
    && payload.fileName == event.fileName && payload.fileHash == event.fileHash
    && payload.caption == event.caption && payload.fileUrl == event.fileUrl
    && payload.mediaGroupId == event.mediaGroupId && payload.mediaType == event.mediaType && payload.contentType == event.contentType
    && payload.senderName == event.senderName
    && payload.replyToSender == event.replyToSender && payload.replyToCaption == event.replyToCaption
    && payload.availableAt == event.availableAt
  }

  lemma PreparedCarries(event: MediaEvent)
    ensures Carries(Prepared(event), event)
  {
  }

  /** The row of an accepted event: the whole event under its trimmed id, due when it asks to be and at once otherwise, with
      a clean record; no other row changes. */
  lemma AcceptedRow(db: Db, event: MediaEvent, now: int, window: int)
    requires Enqueue(db, event, now, window).1 == Accepted
    ensures var after := Enqueue(db, event, now, window).0; var id := Trim(event.eventId);
            && id !in db.pending && id in after.pending && after.pending - {id} == db.pending
            && var row := after.pending[id];
               && Carries(row.payload, event) && row.route == row.payload.route
               && row.availableAt == (if event.availableAt > 0 then event.availableAt else Unix(now))
               && row.retryCount == 0 && row.lastError == "" && row.createdAt == Unix(now)
  {
    PreparedCarries(event);
    hide Enqueue, Trim, Unix, Carries;
  }

  /** An enqueue is accepted exactly when its id and route are complete, the id is new to the queue, and no fingerprint of the
      same media on the same route is as recent as the duplicate window, counted from the start of the Unix era at the earliest. */
  lemma EnqueueAcceptsIff(db: Db, event: MediaEvent, now: int, window: int)
    ensures var id, r := Trim(event.eventId), TrimRoute(event.route);
            (Enqueue(db, event, now, window).1 == Accepted
             <==> && id != "" && r.sourcePlatform != "" && r.sourceId != "" && r.targetPlatform != "" && r.targetId != ""
                  && id !in db.processed && id !in db.pending
                  && (Trim(event.fileHash) != "" && (r, event.fileHash) in db.dedupe ==>
                        db.dedupe[(r, event.fileHash)] < Unix(now) - window || db.dedupe[(r, event.fileHash)] < 0))
  {
    hide Trim, TrimRoute, Unix;
  }

  /** An enqueue that inserts no event still changes the database exactly when the id is pending and its fingerprint is
      not live. */
  lemma IgnoredButRemembered(db: Db, event: MediaEvent, e: MediaEvent, now: int, window: int)
    requires e == Prepared(event) && Unix(now) >= 0 && window >= 0
    ensures (Enqueue(db, event, now, window).1 != Accepted && Enqueue(db, event, now, window).0 != db)
       <==> && Complete(e) && e.eventId in db.pending && e.eventId !in db.processed
            && HasHash(e) && !Live(db.dedupe, HashOf(e), DedupeCutoff(Unix(now), window))
  {
    var after := Enqueue(db, event, now, window).0;
    if Complete(e) && e.eventId !in db.processed && HasHash(e) && !Live(db.dedupe, HashOf(e), DedupeCutoff(Unix(now), window)) {
      assert after.dedupe[HashOf(e)] == Unix(now);
    }
  }
}
