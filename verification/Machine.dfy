/** Producers, queue workers, operators, the digest scheduler and retention, interleaved step by step. */
module Machine {
  import opened Clock
  import opened Models
  import opened Tables

  const SEVEN_DAYS := 7 * DAY
  const FOURTEEN_DAYS := 14 * DAY

  /** Where a worker stands between two transactions. */
  datatype Phase =
    | Idle
    | Holding(q: QueuedEvent)
    | Buffered(q: QueuedEvent)
    | Delivered(q: QueuedEvent)

  /** Where the digest scheduler stands; a pass works with one cutoff. */
  datatype Sched =
    | Off
    | Pass(cutoff: int)
    | Listed(cutoff: int, route: Route, rows: set<string>)
    | Reported(cutoff: int, route: Route, rows: set<string>)

  datatype Acceptance = Acceptance(key: HashKey, hashed: bool, at: int)

  datatype Sending = Sending(id: string, at: int)

  /** What an observer has seen: successful sends, accepted events, failures since (re)insertion, digest totals. */
  datatype History = History(
    sends: seq<Sending>,
    accepted: seq<Acceptance>,
    failures: map<string, nat>,
    everBuffered: nat,
    reported: nat)

  datatype State = State(db: Db, now: int, workers: map<nat, Phase>, sched: Sched, hist: History)

  datatype Action =
    | Tick(elapsed: nat)
    | Produce(event: MediaEvent)
    | ClaimNext(w: nat, id: string)
    | Filter(w: nat)
    | BufferDigest(w: nat, minutes: int)
    | Send(w: nat)
    | AckHeld(w: nat)
    | Fail(w: nat, reason: string)
    | RateLimited(w: nat)
    | Crash(w: nat)
    | ReplayLetter(letter: nat, targetPlatform: string, targetId: string)
    | ExpireProcessed(ids: set<string>)
    | ExpireDead(letters: set<nat>)
    | ExpireDedupe(keys: set<HashKey>)
    | ExpireDigest(ids: set<string>)
    | StartPass
    | ListGroup(route: Route)
    | SkipGroup
    | ReportGroup
    | DeleteGroup
    | DropGroup(route: Route)
    | EndPass
    | SchedulerCrash

  function PhaseOf(s: State, w: nat): Phase {
    if w in s.workers then s.workers[w] else Idle
  }

  predicate Enabled(c: Config, s: State, a: Action) {
    match a
    case Tick(_) => true
    case Produce(_) => true
    case ClaimNext(w, id) => PhaseOf(s, w).Idle? && Claimable(s.db, id, Unix(s.now))
    case Filter(w) => PhaseOf(s, w).Holding?
    case BufferDigest(w, _) => PhaseOf(s, w).Holding?
    case Send(w) => PhaseOf(s, w).Holding?
    case AckHeld(w) => PhaseOf(s, w).Buffered? || PhaseOf(s, w).Delivered?
    case Fail(w, _) => PhaseOf(s, w).Holding? && PhaseOf(s, w).q.retryCount >= 0
    case RateLimited(w) => PhaseOf(s, w).Holding?
    case Crash(w) => true
    case ReplayLetter(_, _, _) => true
    case ExpireProcessed(ids) => forall id | id in ids :: id in s.db.processed && s.db.processed[id] < Unix(s.now - SEVEN_DAYS)
    case ExpireDead(letters) => forall k | k in letters :: k in s.db.dead && s.db.dead[k].failedAt < Unix(s.now - FOURTEEN_DAYS)
    case ExpireDedupe(keys) => forall k | k in keys :: k in s.db.dedupe && s.db.dedupe[k] < Unix(s.now - c.dedupeWindow * SECOND)
    case ExpireDigest(ids) => forall id | id in ids :: id in s.db.digest && s.db.digest[id].createdAt < Unix(s.now - SEVEN_DAYS)
    case StartPass => s.sched.Off?
    case ListGroup(route) => s.sched.Pass? && DueDigest(s.db, route, s.sched.cutoff) != {}
    case SkipGroup => s.sched.Listed?
    case ReportGroup => s.sched.Listed?
    case DeleteGroup => s.sched.Reported?
    case DropGroup(_) => s.sched.Pass?
    case EndPass => s.sched.Pass?
    case SchedulerCrash => true
  }

  function Next(c: Config, s: State, a: Action): State
    requires Enabled(c, s, a)
  {
    match a
    case Tick(elapsed) => s.(now := s.now + elapsed)
    case Produce(event) => AfterProduce(c, s, event)
    case ClaimNext(w, id) =>
      s.(db := Claim(s.db, id, s.now, c.lease), workers := s.workers[w := Holding(ClaimedEvent(id, s.db.pending[id]))])
    case Filter(w) => AfterAck(s, w)
    case BufferDigest(w, minutes) => AfterBuffer(s, w, minutes)
    case Send(w) =>
      var q := PhaseOf(s, w).q;
      s.(workers := s.workers[w := Delivered(q)], hist := s.hist.(sends := s.hist.sends + [Sending(q.event.eventId, s.now)]))
    case AckHeld(w) => AfterAck(s, w)
    case Fail(w, reason) => AfterFail(c, s, w, reason)
    case RateLimited(w) => AfterRateLimit(s, w)
    case Crash(w) => s.(workers := s.workers[w := Idle])
    case ReplayLetter(letter, tp, tid) => AfterReplay(s, letter, tp, tid)
    case ExpireProcessed(ids) => s.(db := s.db.(processed := s.db.processed - ids))
    case ExpireDead(letters) => s.(db := s.db.(dead := s.db.dead - letters))
    case ExpireDedupe(keys) => s.(db := s.db.(dedupe := s.db.dedupe - keys))
    case ExpireDigest(ids) => s.(db := s.db.(digest := s.db.digest - ids))
    case StartPass => s.(sched := Pass(Unix(s.now)))
    case ListGroup(route) => s.(sched := Listed(s.sched.cutoff, route, DueDigest(s.db, route, s.sched.cutoff)))
    case SkipGroup => s.(sched := Pass(s.sched.cutoff))
    case ReportGroup =>
      s.(sched := Reported(s.sched.cutoff, s.sched.route, s.sched.rows), hist := s.hist.(reported := s.hist.reported + |s.sched.rows|))
    case DeleteGroup =>
      s.(sched := Pass(s.sched.cutoff), db := s.db.(digest := s.db.digest - DueDigest(s.db, s.sched.route, s.sched.cutoff)))
    case DropGroup(route) => s.(db := s.db.(digest := s.db.digest - DueDigest(s.db, route, s.sched.cutoff)))
    case EndPass => s.(sched := Off)
    case SchedulerCrash => s.(sched := Off)
  }

  function AfterProduce(c: Config, s: State, event: MediaEvent): State {
    var (db, outcome) := Enqueue(s.db, event, s.now, c.dedupeWindow);
    var e := Prepared(event);
    if outcome == Accepted then
      s.(db := db, hist := s.hist.(accepted := s.hist.accepted + [Acceptance(HashOf(e), HasHash(e), s.now)],
                                   failures := s.hist.failures[e.eventId := 0]))
    else s.(db := db)
  }

  function AfterAck(s: State, w: nat): State
    requires !PhaseOf(s, w).Idle?
  {
    s.(db := Ack(s.db, PhaseOf(s, w).q.event.eventId, s.now), workers := s.workers[w := Idle])
  }

  function AfterBuffer(s: State, w: nat, minutes: int): State
    requires PhaseOf(s, w).Holding?
  {
    var q := PhaseOf(s, w).q;
    var db := Buffer(s.db, q.event, s.now, s.now + DigestInterval(minutes));
    s.(db := db, workers := s.workers[w := Buffered(q)],
       hist := s.hist.(everBuffered := s.hist.everBuffered + if db == s.db then 0 else 1))
  }

  function FailuresOf(s: State, id: string): nat {
    if id in s.hist.failures then s.hist.failures[id] else 0
  }

  function AfterFail(c: Config, s: State, w: nat, reason: string): State
    requires PhaseOf(s, w).Holding? && PhaseOf(s, w).q.retryCount >= 0
  {
    var q := PhaseOf(s, w).q;
    var id := q.event.eventId;
    s.(db := DeliveryFailure(c, s.db, q, reason, s.now), workers := s.workers[w := Idle],
       hist := s.hist.(failures := s.hist.failures[id := FailuresOf(s, id) + 1]))
  }

  function AfterRateLimit(s: State, w: nat): State
    requires PhaseOf(s, w).Holding?
  {
    var q := PhaseOf(s, w).q;
    s.(db := Reschedule(s.db, q.event.eventId, q.retryCount, s.now + 5 * SECOND, "rate limited"), workers := s.workers[w := Idle])
  }

  function AfterReplay(s: State, letter: nat, targetPlatform: string, targetId: string): State {
    var db := Replay(s.db, letter, targetPlatform, targetId, s.now);
    if Replayable(s.db, letter, targetPlatform, targetId) && s.db.dead[letter].eventId !in s.db.processed then
      s.(db := db, hist := s.hist.(failures := s.hist.failures[s.db.dead[letter].eventId := 0]))
    else s.(db := db)
  }

  // ---- runs ----

  predicate Run(c: Config, s: State, actions: seq<Action>)
    decreases |actions|
  {
    actions == [] || (Enabled(c, s, actions[0]) && Run(c, Next(c, s, actions[0]), actions[1..]))
  }

  function After(c: Config, s: State, actions: seq<Action>): State
    requires Run(c, s, actions)
    decreases |actions|
  {
    if actions == [] then s else After(c, Next(c, s, actions[0]), actions[1..])
  }

  lemma OneStep(c: Config, s: State, a: Action, rest: seq<Action>)
    requires Enabled(c, s, a) && Run(c, Next(c, s, a), rest)
    ensures Run(c, s, [a] + rest) && After(c, s, [a] + rest) == After(c, Next(c, s, a), rest)
  {
    hide Enabled, Next;
    assert ([a] + rest)[1..] == rest;
  }

  lemma NoSteps(c: Config, s: State)
    ensures Run(c, s, []) && After(c, s, []) == s
  {
  }

  lemma TwoSteps(c: Config, s: State, a: Action, b: Action, rest: seq<Action>)
    requires Enabled(c, s, a) && Enabled(c, Next(c, s, a), b) && Run(c, Next(c, Next(c, s, a), b), rest)
    ensures Run(c, s, [a, b] + rest) && After(c, s, [a, b] + rest) == After(c, Next(c, Next(c, s, a), b), rest)
  {
    hide Enabled, Next, Run, After;
    OneStep(c, Next(c, s, a), b, rest);
    OneStep(c, s, a, [b] + rest);
    assert [a] + ([b] + rest) == [a, b] + rest;
  }

  lemma {:induction false} RunAppend(c: Config, s: State, first: seq<Action>, second: seq<Action>)
    requires Run(c, s, first) && Run(c, After(c, s, first), second)
    ensures Run(c, s, first + second) && After(c, s, first + second) == After(c, After(c, s, first), second)
    decreases |first|
  {
    hide Enabled, Next;
    if first == [] {
      assert [] + second == second;
    } else {
      RunAppend(c, Next(c, s, first[0]), first[1..], second);
      assert (first + second)[1..] == first[1..] + second;
    }
  }

  /** A freshly installed database at some instant of the Unix era. */
  function Start(now: int): State {
    State(EMPTY, now, map[], Off, History([], [], map[], 0, 0))
  }

  lemma StepClock(c: Config, s: State, a: Action)
    requires Enabled(c, s, a)
    ensures s.now <= Next(c, s, a).now
  {
    hide Enqueue, Ack, Reschedule, DeliveryFailure, Replay, Buffer, DueDigest, Unix, ClaimedEvent, Claimable, Prepared,
         Replayable, LeaseEnd;
  }
}
