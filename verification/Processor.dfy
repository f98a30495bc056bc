/** The queue worker: one claimed event from claim to ack, retry, dead letter or digest. */
module Processor {
  import opened BlockedWords
  import opened CaptionExactness
  import opened Captions
  import opened Clock
  import opened Machine
  import opened Models
  import opened QueueStore
  import opened RateLimit
  import opened Starvation
  import opened Tables
  import opened Text
  import Backoff

  /** What the worker reads from elsewhere while it processes one event. */
  datatype Env = Env(
    config: RuleConfig,
    wordsError: Option<string>,
    blockedWords: seq<string>,
    moderationBlocks: bool,
    hasConsumer: bool,
    sendError: Option<string>,
    destMax: int,
    destWindow: int,
    clockText: string,
    now: int,
    ackAt: int)

  datatype Verdict = Filtered | Digested | Limited | Failed(reason: string) | Undelivered(reason: string) | DeliveredOk

  predicate WithinLimit(buckets: Buckets, event: MediaEvent, env: Env) {
    PassesLimit(buckets, Call(DestKey(event.route), env.now), env.destMax, env.destWindow)
  }

  predicate IsFiltered(event: MediaEvent, env: Env) {
    && !env.config.simulationMode
    && (env.moderationBlocks || Blocks(env.blockedWords, event.caption))
  }

  /** The caption of the message handed to the consumer. */
  function SentCaption(event: MediaEvent, env: Env): string {
    Formatted(event.caption, event.senderName, event.route.sourceId, event.replyToSender, event.replyToCaption,
              env.config.captionTemplate, env.clockText)
  }

  /** How the branches of processQueuedEvent dispose of an event. */
  function Decide(event: MediaEvent, env: Env, buckets: Buckets): Verdict {
    if Trim(event.route.targetId) == "" then Failed("missing target id")
    else if env.wordsError.Some? then Failed("failed to read blocked words: " + env.wordsError.value)
    else if IsFiltered(event, env) then Filtered
    else if env.config.digestEnabled then DecideDigest(event)
    else DecideDelivery(event, env, buckets)
  }

  function DecideDigest(event: MediaEvent): Verdict {
    match DigestError(event)
    case Some(error) => Failed("failed to queue digest: " + error)
    case None => Digested
  }

  function DecideDelivery(event: MediaEvent, env: Env, buckets: Buckets): Verdict {
    if !WithinLimit(buckets, event, env) then Limited
    else if !env.hasConsumer then Failed("consumer not found for platform " + event.route.targetPlatform)
    else if env.sendError.Some? then Undelivered(event.route.targetPlatform + " delivery failed: " + env.sendError.value)
    else DeliveredOk
  }

  /** What each disposal does to the database. */
  function Effect(c: Config, db: Db, q: QueuedEvent, verdict: Verdict, env: Env): Db
    requires q.retryCount >= 0
  {
    var id := q.event.eventId;
    match verdict
    case Filtered => Ack(db, id, env.ackAt)
    case Digested => Ack(Buffer(db, q.event, env.now, env.now + DigestInterval(env.config.digestIntervalMinutes)), id, env.ackAt)
    case Limited => Reschedule(db, id, q.retryCount, env.now + 5 * SECOND, "rate limited")
    case Failed(reason) => DeliveryFailure(c, db, q, reason, env.now)
    case Undelivered(reason) => DeliveryFailure(c, db, q, reason, env.now)
    case DeliveredOk => Ack(db, id, env.ackAt)
  }

  class Worker {
    const store: Store
    const limiter: RateLimiter
    const config: Config

    constructor (store: Store, limiter: RateLimiter, config: Config)
      ensures this.store == store && this.limiter == limiter && this.config == config
    {
      this.store, this.limiter, this.config := store, limiter, config;
    }

    method HandleDeliveryFailure(q: QueuedEvent, reason: string, now: int)
      requires q.retryCount >= 0
      modifies store
      ensures store.Content() == DeliveryFailure(config, old(store.Content()), q, reason, now)
    {
      hide Unix, Trim, Wrap64, MoveToDead, Reschedule, Store.Content, Backoff.ShiftedOne;
      var nextRetry := q.retryCount + 1;
      var text := Trim(reason);
      if text == "" {
        text := "unknown delivery failure";
      }
      if nextRetry > config.maxRetries {
        var letter := store.MovePendingEventToDeadLetter(q.event.eventId, text, now);
        return;
      }
      var backoff := Wrap64(config.retryBase * Backoff.ShiftedOne(nextRetry - 1));
      if backoff > 300 * SECOND {
        backoff := 300 * SECOND;
      }
      var ok := store.ReschedulePendingEvent(q.event.eventId, nextRetry, now + backoff, text);
    }

    /** Processes one claimed event; the result is the caption of the delivery the consumer confirmed, if any. */
    method ProcessQueuedEvent(q: QueuedEvent, env: Env) returns (sent: Option<string>)
      requires q.retryCount >= 0
      modifies store, limiter
      ensures var verdict := Decide(q.event, env, old(limiter.buckets));
              && store.Content() == Effect(config, old(store.Content()), q, verdict, env)
              && sent == if verdict.DeliveredOk? then Some(SentCaption(q.event, env)) else None
      ensures var event, route := q.event, q.event.route;
              var readable := Trim(route.targetId) != "" && env.wordsError.None?;
              var passes := env.config.simulationMode || (!Blocks(env.blockedWords, event.caption) && !env.moderationBlocks);
              var asks := readable && passes && !env.config.digestEnabled;
              var within := env.destMax <= 0 || Allows(old(limiter.buckets), Call(DestKey(route), env.now), env.destMax, env.destWindow);
              && (sent.Some? <==> asks && within && env.hasConsumer && env.sendError.None?)
              && limiter.buckets == if asks then Charged(old(limiter.buckets), Call(DestKey(route), env.now), env.destMax, env.destWindow)
                                    else old(limiter.buckets)
    {
      hide Unix, Trim, Wrap64, DeliveryFailure, Ack, Buffer, Reschedule, Store.Content, Blocks, WithinLimit, DigestInterval;
      VerdictIff(q.event, env, limiter.buckets);
      hide Decide, DecideDelivery, IsFiltered;
      var event := q.event;
      sent := None;
      if Trim(event.route.targetId) == "" {
        HandleDeliveryFailure(q, "missing target id", env.now);
        return;
      }
      if env.wordsError.Some? {
        HandleDeliveryFailure(q, "failed to read blocked words: " + env.wordsError.value, env.now);
        return;
      }
      var blocked := ContainsBlockedWord(event.caption, env.blockedWords);
      if blocked && !env.config.simulationMode {
        var acked := store.AckPendingEvent(event.eventId, env.ackAt);
        return;
      }
      if env.moderationBlocks && !env.config.simulationMode {
        var acked := store.AckPendingEvent(event.eventId, env.ackAt);
        return;
      }
      if env.config.digestEnabled {
        QueueForDigest(q, env);
        return;
      }
      sent := Deliver(q, env);
    }

    /** The digest branch: buffer the event, then take it off the queue. */
    method QueueForDigest(q: QueuedEvent, env: Env)
      requires q.retryCount >= 0 && env.config.digestEnabled
      modifies store
      ensures store.Content() == Effect(config, old(store.Content()), q, DecideDigest(q.event), env)
    {
      hide Unix, Trim, DeliveryFailure, Ack, Buffer, Reschedule, Store.Content, Wrap64;
      var interval := Wrap64(env.config.digestIntervalMinutes * MINUTE);
      if interval <= 0 {
        interval := DAY;
      }
      var error := store.AddDigestEvent(q.event, env.now, env.now + interval);
      if error.Some? {
        BlankIsNotBuffered(old(store.Content()), q.event, env.now, env.now + interval);
        HandleDeliveryFailure(q, "failed to queue digest: " + error.value, env.now);
        return;
      }
      var acked := store.AckPendingEvent(q.event.eventId, env.ackAt);
    }

    /** The delivery branch: destination limit, consumer, send, ack. */
    method Deliver(q: QueuedEvent, env: Env) returns (sent: Option<string>)
      requires q.retryCount >= 0
      modifies store, limiter
      ensures limiter.buckets == Charged(old(limiter.buckets), Call(DestKey(q.event.route), env.now), env.destMax, env.destWindow)
      ensures var verdict := DecideDelivery(q.event, env, old(limiter.buckets));
              && store.Content() == Effect(config, old(store.Content()), q, verdict, env)
              && sent == if verdict.DeliveredOk? then Some(SentCaption(q.event, env)) else None
    {
      hide Unix, Trim, DeliveryFailure, Ack, Buffer, Reschedule, Store.Content, Allows, Formatted;
      sent := None;
      var allowed := limiter.CheckDestinationRateLimit(DestKey(q.event.route), env.destMax, env.destWindow, env.now);
      if !allowed {
        var ok := store.ReschedulePendingEvent(q.event.eventId, q.retryCount, env.now + 5 * SECOND, "rate limited");
        return;
      }
      var formatted := ApplyFormatting(q.event.caption, q.event.senderName, q.event.route.sourceId, q.event.replyToSender, q.event.replyToCaption,
                                       env.config.captionTemplate, env.clockText);
      if !env.hasConsumer {
        HandleDeliveryFailure(q, "consumer not found for platform " + q.event.route.targetPlatform, env.now);
        return;
      }
      if env.sendError.Some? {
        HandleDeliveryFailure(q, q.event.route.targetPlatform + " delivery failed: " + env.sendError.value, env.now);
        return;
      }
      sent := Some(formatted);
      var acked := store.AckPendingEvent(q.event.eventId, env.ackAt);
    }
  }

  /** When an event gets which verdict, in the order of the branches: the target and the words decide first, then the filters
      unless they are only simulated, then the digest setting, the limit, the consumer and the send. */
  lemma VerdictIff(event: MediaEvent, env: Env, buckets: Buckets)
    ensures var verdict, route := Decide(event, env, buckets), event.route;
            var readable := Trim(route.targetId) != "" && env.wordsError.None?;
            var passes := env.config.simulationMode || (!Blocks(env.blockedWords, event.caption) && !env.moderationBlocks);
            var asks := readable && passes && !env.config.digestEnabled;
            var within := env.destMax <= 0 || Allows(buckets, Call(DestKey(route), env.now), env.destMax, env.destWindow);
            var complete := Trim(event.eventId) != "" && Trim(route.sourcePlatform) != "" && Trim(route.sourceId) != ""
                            && Trim(route.targetPlatform) != "";
            && (verdict.Filtered? <==> readable && !passes)
            && (verdict.Digested? <==> readable && passes && env.config.digestEnabled && complete)
            && (verdict.Limited? <==> asks && !within)
            && (verdict.Undelivered? <==> asks && within && env.hasConsumer && env.sendError.Some?)
            && (verdict.DeliveredOk? <==> asks && within && env.hasConsumer && env.sendError.None?)
            && (verdict.Failed? <==> !readable || (passes && env.config.digestEnabled && !complete) || (asks && within && !env.hasConsumer))
            && (Trim(route.targetId) == "" ==> verdict == Failed("missing target id"))
            && (Trim(route.targetId) != "" && env.wordsError.Some? ==>
                  verdict == Failed("failed to read blocked words: " + env.wordsError.value))
            && (asks && within && !env.hasConsumer ==> verdict == Failed("consumer not found for platform " + route.targetPlatform))
            && (asks && within && env.hasConsumer && env.sendError.Some? ==>
                  verdict == Undelivered(route.targetPlatform + " delivery failed: " + env.sendError.value))
  {
    hide Trim, Blocks, Allows, DestKey;
  }

  /** The text of a delivery: behind the quote of the message it answers, the event's caption, or the template with the
      caption, the sender, the source chat and the time each under its own placeholder. */
  lemma SentText(event: MediaEvent, env: Env, quote: string)
    requires IsQuote(quote, event.replyToSender, event.replyToCaption)
    ensures var tpl := env.config.captionTemplate;
            var passes := [Captions.Pass.Pass("caption", event.caption), Captions.Pass.Pass("sender", event.senderName),
                           Captions.Pass.Pass("source_chat", event.route.sourceId), Captions.Pass.Pass("time", env.clockText)];
            && (tpl == "" ==> SentCaption(event, env) == Trim(quote + event.caption))
            && (tpl != "" && !Ambiguous(tpl, ["caption", "sender", "source_chat", "time"]) && SafeValues(passes) ==>
                  SentCaption(event, env) == Trim(quote + Substitute(tpl, passes)))
  {
    hide Trim, Formatted, Substitute, Ambiguous, SafeValues, IsQuote;
    var tpl := env.config.captionTemplate;
    if tpl == "" {
      PlainCaption(event.caption, event.senderName, event.route.sourceId, event.replyToSender, event.replyToCaption, env.clockText, quote);
    } else if !Ambiguous(tpl, CAPTION_NAMES) && SafeValues(CaptionPasses(event.caption, event.senderName, event.route.sourceId, env.clockText)) {
      TemplatedCaption(event.caption, event.senderName, event.route.sourceId, event.replyToSender, event.replyToCaption, tpl, env.clockText, quote);
    }
  }

  lemma BlankIsNotBuffered(db: Db, event: MediaEvent, now: int, deliverAfter: int)
    requires DigestError(event).Some?
    ensures Buffer(db, event, now, deliverAfter) == db
  {
  }

  /** The event is acked: off the queue, marked at the instant of the ack, and no letter. */
  predicate Acked(db: Db, id: string, after: Db, at: int) {
    after.pending == db.pending - {id} && after.processed == db.processed[id := Unix(at)] && after.dead == db.dead
  }

  /** Whatever the verdict, a claimed event ends up in exactly one known place, due at the instant its verdict calls for, and
      only a digested one adds a digest row. */
  lemma EveryVerdictDisposes(c: Config, db: Db, q: QueuedEvent, verdict: Verdict, env: Env)
    requires RowsOk(c, db) && Disjoint(db) && DelaysFit(c)
    requires q.event.eventId in db.pending && 0 <= q.retryCount <= c.maxRetries
    ensures var id := q.event.eventId; var row, after := db.pending[id], Effect(c, db, q, verdict, env);
            && (!verdict.Digested? ==> after.digest == db.digest)
            && match verdict
               case Limited =>
                 after.pending == db.pending[id := row.(retryCount := q.retryCount, availableAt := Unix(env.now) + 5, lastError := "rate limited")]
                 && after.processed == db.processed && after.dead == db.dead
               case Failed(reason) => Retried(c, db, q, reason, after, env.now)
               case Undelivered(reason) => Retried(c, db, q, reason, after, env.now)
               case Digested => Acked(db, id, after, env.ackAt) && RowBuffered(db, q.event, after, env)
               case _ => Acked(db, id, after, env.ackAt)
  {
    hide Trim, Buffer, Unix, RowsOk, DeliveryFailure, RowBuffered, Retried;
    var id := q.event.eventId;
    assert Trim(id) == id != "" by { RowNamesAreTrimmed(c, db, id); }
    match verdict
    case Limited =>
      UnixShift(env.now, 5);
      assert Trim("rate limited") == "rate limited";
    case Failed(reason) => FailureRetries(c, db, q, reason, env.now);
    case Undelivered(reason) => FailureRetries(c, db, q, reason, env.now);
    case Digested => DigestedIsBuffered(c, db, q, env);
    case _ =>
  }

  /** One row more, with the event's texts, due after the setting's delay, unless its id is buffered already or its route is
      incomplete. */
  predicate RowBuffered(db: Db, event: MediaEvent, after: Db, env: Env) {
    var id, r := event.eventId, event.route;
    if Trim(r.sourcePlatform) == "" || Trim(r.sourceId) == "" || Trim(r.targetPlatform) == "" || Trim(r.targetId) == "" || id in db.digest
    then after.digest == db.digest
    else after.digest == db.digest[id := DigestRow(
           Route(Trim(r.sourcePlatform), Trim(r.sourceId), Trim(r.targetPlatform), Trim(r.targetId)),
           Trim(event.caption), Trim(event.fileName), Trim(event.mediaType),
           Unix(env.now), Unix(env.now + DigestInterval(env.config.digestIntervalMinutes)))]
  }

  lemma DigestedIsBuffered(c: Config, db: Db, q: QueuedEvent, env: Env)
    requires q.retryCount >= 0 && Trim(q.event.eventId) == q.event.eventId != ""
    ensures RowBuffered(db, q.event, Effect(c, db, q, Digested, env), env)
  {
    BufferedRow(db, q.event, env.now, env.now + DigestInterval(env.config.digestIntervalMinutes));
    hide Trim, Buffer, Unix, DigestInterval, Ack;
  }

  /** A failure within the limit is retried after the intended backoff; the one beyond it makes a dead letter with the
      event's payload. Either keeps the reason. */
  predicate Retried(c: Config, db: Db, q: QueuedEvent, reason: string, after: Db, now: int)
    requires q.event.eventId in db.pending && q.retryCount >= 0
  {
    var id, text := q.event.eventId, if Trim(reason) == "" then "unknown delivery failure" else Trim(reason);
    && after.processed == db.processed
    && if q.retryCount < c.maxRetries then
         && after.dead == db.dead && id in after.pending
         && after.pending == db.pending[id := after.pending[id]]
         && after.pending[id].retryCount == q.retryCount + 1 && after.pending[id].lastError == text
         && after.pending[id].availableAt == Unix(now + Backoff.Intended(c.retryBase, q.retryCount + 1)) >= Unix(now)
       else
         && after.pending == db.pending - {id}
         && db.nextDead in after.dead && after.dead[db.nextDead].eventId == id
         && after.dead[db.nextDead].payload == db.pending[id].payload && after.dead[db.nextDead].reason == text
  }

  lemma RowNamesAreTrimmed(c: Config, db: Db, id: string)
    requires RowsOk(c, db) && id in db.pending
    ensures Trim(id) == id != ""
  {
  }

  lemma FailureTextIsTrimmed(reason: string)
    ensures Trim(FailureText(reason)) == FailureText(reason)
  {
    assert Trimmed("unknown delivery failure");
  }

  lemma FailureReschedules(c: Config, db: Db, q: QueuedEvent, reason: string, now: int)
    requires 0 <= q.retryCount < c.maxRetries
    ensures DeliveryFailure(c, db, q, reason, now)
         == Reschedule(db, q.event.eventId, q.retryCount + 1, now + Backoff.Delay(c.retryBase, q.retryCount + 1), FailureText(reason))
  {
    hide Reschedule, MoveToDead, FailureText, Backoff.Delay;
  }

  lemma FailureIsRetried(c: Config, db: Db, q: QueuedEvent, reason: string, now: int)
    requires RowsOk(c, db) && DelaysFit(c)
    requires q.event.eventId in db.pending && 0 <= q.retryCount < c.maxRetries
    ensures Retried(c, db, q, reason, DeliveryFailure(c, db, q, reason, now), now)
  {
    hide Trim, Unix, RowsOk, Backoff.Delay, Backoff.Intended, Reschedule, DelaysFit, DeliveryFailure;
    RowNamesAreTrimmed(c, db, q.event.eventId);
    FailureTextIsTrimmed(reason);
    RetryDelayIsIntended(c, q.retryCount + 1);
    UnixMonotone(now, now + Backoff.Delay(c.retryBase, q.retryCount + 1));
    FailureReschedules(c, db, q, reason, now);
  }

  lemma FailureIsBuried(c: Config, db: Db, q: QueuedEvent, reason: string, now: int)
    requires RowsOk(c, db) && q.event.eventId in db.pending && q.retryCount == c.maxRetries
    ensures Retried(c, db, q, reason, DeliveryFailure(c, db, q, reason, now), now)
  {
    RowNamesAreTrimmed(c, db, q.event.eventId);
    FailureTextIsTrimmed(reason);
    hide Trim, Unix, RowsOk, MoveToDead, Reschedule, Backoff.Intended;
  }

  lemma FailureRetries(c: Config, db: Db, q: QueuedEvent, reason: string, now: int)
    requires RowsOk(c, db) && DelaysFit(c)
    requires q.event.eventId in db.pending && 0 <= q.retryCount <= c.maxRetries
    ensures Retried(c, db, q, reason, DeliveryFailure(c, db, q, reason, now), now)
  {
    hide Retried, DeliveryFailure, RowsOk, DelaysFit;
    if q.retryCount < c.maxRetries {
      FailureIsRetried(c, db, q, reason, now);
    } else {
      FailureIsBuried(c, db, q, reason, now);
    }
  }

  /** The machine steps of one undisturbed processing. */
  function Steps(w: nat, verdict: Verdict, env: Env): seq<Action>
    requires env.now <= env.ackAt
  {
    var wait := env.ackAt - env.now;
    match verdict
    case Filtered => [Tick(wait), Filter(w)]
    case Digested => [BufferDigest(w, env.config.digestIntervalMinutes)] + [Tick(wait), AckHeld(w)]
    case Limited => [RateLimited(w)]
    case Failed(reason) => [Fail(w, reason)]
    case Undelivered(reason) => [Fail(w, reason)]
    case DeliveredOk => [Send(w)] + [Tick(wait), AckHeld(w)]
  }

  lemma FilteredRun(c: Config, s: State, w: nat, wait: nat)
    requires PhaseOf(s, w).Holding?
    ensures var steps := [Tick(wait), Filter(w)];
            Run(c, s, steps) && After(c, s, steps) == AfterAck(s.(now := s.now + wait), w)
  {
    hide Run, After, AfterAck;
    NoSteps(c, AfterAck(s.(now := s.now + wait), w));
    TwoSteps(c, s, Tick(wait), Filter(w), []);
    assert [Tick(wait), Filter(w)] + [] == [Tick(wait), Filter(w)];
  }

  lemma AckedRun(c: Config, s: State, w: nat, wait: nat)
    requires PhaseOf(s, w).Delivered? || PhaseOf(s, w).Buffered?
    ensures var steps := [Tick(wait), AckHeld(w)];
            Run(c, s, steps) && After(c, s, steps) == AfterAck(s.(now := s.now + wait), w)
  {
    hide Run, After, AfterAck;
    NoSteps(c, AfterAck(s.(now := s.now + wait), w));
    TwoSteps(c, s, Tick(wait), AckHeld(w), []);
    assert [Tick(wait), AckHeld(w)] + [] == [Tick(wait), AckHeld(w)];
  }

  lemma SentRun(c: Config, s: State, w: nat, wait: nat)
    requires PhaseOf(s, w).Holding?
    ensures var q := PhaseOf(s, w).q; var steps := [Send(w)] + [Tick(wait), AckHeld(w)];
            && Run(c, s, steps)
            && After(c, s, steps) == AfterAck(s.(workers := s.workers[w := Delivered(q)], now := s.now + wait,
                                                  hist := s.hist.(sends := s.hist.sends + [Sending(q.event.eventId, s.now)])), w)
  {
    hide Run, After, AfterAck;
    AckedRun(c, Next(c, s, Send(w)), w, wait);
    OneStep(c, s, Send(w), [Tick(wait), AckHeld(w)]);
  }

  lemma DigestedRun(c: Config, s: State, w: nat, minutes: int, wait: nat)
    requires PhaseOf(s, w).Holding?
    ensures var steps := [BufferDigest(w, minutes)] + [Tick(wait), AckHeld(w)]; var buffered := AfterBuffer(s, w, minutes);
            && Run(c, s, steps) && PhaseOf(buffered, w).Buffered?
            && After(c, s, steps) == AfterAck(buffered.(now := s.now + wait), w)
  {
    hide Run, After, AfterAck, Buffer;
    AckedRun(c, Next(c, s, BufferDigest(w, minutes)), w, wait);
    OneStep(c, s, BufferDigest(w, minutes), [Tick(wait), AckHeld(w)]);
  }

  lemma RefusedRun(c: Config, s: State, w: nat, reason: string)
    requires PhaseOf(s, w).Holding? && PhaseOf(s, w).q.retryCount >= 0
    ensures Run(c, s, [RateLimited(w)]) && After(c, s, [RateLimited(w)]) == AfterRateLimit(s, w)
    ensures Run(c, s, [Fail(w, reason)]) && After(c, s, [Fail(w, reason)]) == AfterFail(c, s, w, reason)
  {
    hide Run, After, AfterRateLimit, AfterFail;
    NoSteps(c, AfterRateLimit(s, w));
    NoSteps(c, AfterFail(c, s, w, reason));
    OneStep(c, s, RateLimited(w), []);
    OneStep(c, s, Fail(w, reason), []);
    assert [RateLimited(w)] + [] == [RateLimited(w)] && [Fail(w, reason)] + [] == [Fail(w, reason)];
  }

  /** The steps of the verdict are a run that frees the worker, sends what the verdict sends and leaves its effect. */
  predicate RunsAs(c: Config, s: State, w: nat, verdict: Verdict, env: Env)
    requires PhaseOf(s, w).Holding? && PhaseOf(s, w).q.retryCount >= 0 && env.now <= env.ackAt
  {
    var q := PhaseOf(s, w).q; var steps := Steps(w, verdict, env);
    && Run(c, s, steps) && PhaseOf(After(c, s, steps), w).Idle?
    && After(c, s, steps).db == Effect(c, s.db, q, verdict, env)
    && (After(c, s, steps).hist.sends == s.hist.sends
        + if verdict.DeliveredOk? then [Sending(q.event.eventId, env.now)] else [])
    && env.now <= After(c, s, steps).now <= env.ackAt
  }

  lemma LimitedRuns(c: Config, s: State, w: nat, env: Env)
    requires PhaseOf(s, w).Holding? && PhaseOf(s, w).q.retryCount >= 0 && s.now == env.now <= env.ackAt
    ensures RunsAs(c, s, w, Limited, env)
  {
    hide Reschedule, Ack, Buffer, DeliveryFailure, Run, After, AfterFail;
    RefusedRun(c, s, w, "");
  }

  lemma FailureRuns(c: Config, s: State, w: nat, verdict: Verdict, env: Env)
    requires PhaseOf(s, w).Holding? && PhaseOf(s, w).q.retryCount >= 0 && s.now == env.now <= env.ackAt
    requires verdict.Failed? || verdict.Undelivered?
    ensures RunsAs(c, s, w, verdict, env)
  {
    hide DeliveryFailure, Reschedule, Ack, Buffer, Run, After, AfterRateLimit;
    RefusedRun(c, s, w, verdict.reason);
  }

  lemma FilteredRuns(c: Config, s: State, w: nat, env: Env)
    requires PhaseOf(s, w).Holding? && PhaseOf(s, w).q.retryCount >= 0 && s.now == env.now <= env.ackAt
    ensures RunsAs(c, s, w, Filtered, env)
  {
    hide Ack, Run, After;
    FilteredRun(c, s, w, env.ackAt - env.now);
  }

  lemma DigestedRuns(c: Config, s: State, w: nat, env: Env)
    requires PhaseOf(s, w).Holding? && PhaseOf(s, w).q.retryCount >= 0 && s.now == env.now <= env.ackAt
    ensures RunsAs(c, s, w, Digested, env)
  {
    hide Ack, Buffer, Run, After, DigestInterval;
    DigestedRun(c, s, w, env.config.digestIntervalMinutes, env.ackAt - env.now);
  }

  lemma DeliveryRuns(c: Config, s: State, w: nat, env: Env)
    requires PhaseOf(s, w).Holding? && PhaseOf(s, w).q.retryCount >= 0 && s.now == env.now <= env.ackAt
    ensures RunsAs(c, s, w, DeliveredOk, env)
  {
    hide Ack, Run, After;
    SentRun(c, s, w, env.ackAt - env.now);
  }

  /** Processing one event in sequence is a run of the machine that frees the worker and leaves the same database. */
  lemma ProcessingIsARun(c: Config, s: State, w: nat, env: Env, buckets: Buckets)
    requires PhaseOf(s, w).Holding? && PhaseOf(s, w).q.retryCount >= 0 && s.now == env.now <= env.ackAt
    ensures RunsAs(c, s, w, Decide(PhaseOf(s, w).q.event, env, buckets), env)
  {
    hide Decide, RunsAs;
    var verdict := Decide(PhaseOf(s, w).q.event, env, buckets);
    match verdict
    case Filtered => FilteredRuns(c, s, w, env);
    case Digested => DigestedRuns(c, s, w, env);
    case DeliveredOk => DeliveryRuns(c, s, w, env);
    case Limited => LimitedRuns(c, s, w, env);
    case Failed(_) => FailureRuns(c, s, w, verdict, env);
    case Undelivered(_) => FailureRuns(c, s, w, verdict, env);
  }
}
