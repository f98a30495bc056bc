/** The processor loop together with arrivals: claim, process, repeat. */
module ProcessorLoop {
  import opened Clock
  import opened Horizon
  import opened Machine
  import opened Models
  import opened Processor
  import opened QueueStore
  import opened RateLimit
  import opened Safety
  import opened Tables

  /** What happens between two rounds of the loop: a producer enqueues an event, or the loop polls the queue. */
  datatype Turn =
    | Arrive(event: MediaEvent, at: int)
    | Poll(at: int, env: Env)
  {
    function End(): int {
      if Arrive? then at else env.ackAt
    }

    predicate InOrder(start: int) {
      start <= at && (Poll? ==> at <= env.now <= env.ackAt)
    }
  }

  /** Clock readings follow the order of the turns. */
  predicate AllInOrder(turns: seq<Turn>, start: int) {
    forall n | 0 <= n < |turns| :: turns[n].InOrder(if n == 0 then start else turns[n - 1].End())
  }

  /** Steps of the one worker that never crashes, and of everyone else. */
  predicate Tidy(a: Action) {
    ByOneWorker(a) && !a.Crash?
  }

  predicate AllTidy(actions: seq<Action>) {
    forall a | a in actions :: Tidy(a)
  }

  lemma {:induction false} TidyIsCareful(c: Config, s: State, actions: seq<Action>)
    requires Run(c, s, actions) && AllTidy(actions)
    ensures CarefulRun(c, s, actions)
    decreases |actions|
  {
    hide Enabled, Next, ByOneWorker;
    if actions != [] {
      assert Tidy(actions[0]);
      TidyIsCareful(c, Next(c, s, actions[0]), actions[1..]);
    }
  }

  /** What a turn of the loop does to the machine while worker 0 is idle. */
  predicate TurnDone(c: Config, s: State, actions: seq<Action>, db: Db, sends: seq<Sending>, end: int) {
    && Run(c, s, actions) && AllTidy(actions)
    && var t := After(c, s, actions);
       t.db == db && PhaseOf(t, 0).Idle? && t.hist.sends == s.hist.sends + sends && s.now <= t.now <= end
  }

  lemma ProduceIsARun(c: Config, s: State, event: MediaEvent, at: int)
    requires s.now <= at
    ensures var steps := [Tick(at - s.now), Produce(event)];
            Run(c, s, steps) && After(c, s, steps) == AfterProduce(c, s.(now := at), event)
  {
    hide Run, After, AfterProduce;
    NoSteps(c, AfterProduce(c, s.(now := at), event));
    TwoSteps(c, s, Tick(at - s.now), Produce(event), []);
    assert [Tick(at - s.now), Produce(event)] + [] == [Tick(at - s.now), Produce(event)];
  }

  lemma ArriveIsARun(c: Config, s: State, event: MediaEvent, at: int)
    requires PhaseOf(s, 0).Idle? && s.now <= at
    ensures TurnDone(c, s, [Tick(at - s.now), Produce(event)], Enqueue(s.db, event, at, c.dedupeWindow).0, [], at)
  {
    hide Run, After, Enqueue, Prepared;
    ProduceIsARun(c, s, event, at);
  }

  lemma WaitIsARun(c: Config, s: State, at: int)
    requires s.now <= at
    ensures Run(c, s, [Tick(at - s.now)]) && After(c, s, [Tick(at - s.now)]) == s.(now := at)
  {
    hide Run, After;
    NoSteps(c, s.(now := at));
    OneStep(c, s, Tick(at - s.now), []);
    assert [Tick(at - s.now)] + [] == [Tick(at - s.now)];
  }

  lemma ClaimIsARun(c: Config, s: State, id: string, at: int)
    requires PhaseOf(s, 0).Idle? && s.now <= at && Claimable(s.db, id, Unix(at))
    ensures var steps := [Tick(at - s.now), ClaimNext(0, id)];
            && Run(c, s, steps)
            && After(c, s, steps) == s.(now := at, db := Claim(s.db, id, at, c.lease),
                                        workers := s.workers[0 := Holding(ClaimedEvent(id, s.db.pending[id]))])
  {
    hide Run, After, Claimable, Unix, ClaimedEvent, Claim;
    assert id in s.db.pending by { ClaimableIsPending(s.db, id, Unix(at)); }
    var steps := [Tick(at - s.now), ClaimNext(0, id)];
    NoSteps(c, s.(now := at, db := Claim(s.db, id, at, c.lease), workers := s.workers[0 := Holding(ClaimedEvent(id, s.db.pending[id]))]));
    TwoSteps(c, s, Tick(at - s.now), ClaimNext(0, id), []);
    assert steps + [] == steps;
  }

  lemma ClaimableIsPending(db: Db, id: string, second: int)
    requires Claimable(db, id, second)
    ensures id in db.pending
  {
  }

  /** The machine steps of one round that found an event. */
  function RoundSteps(s: State, id: string, at: int, verdict: Verdict, env: Env): seq<Action>
    requires s.now <= at <= env.now <= env.ackAt
  {
    [Tick(at - s.now), ClaimNext(0, id)] + ([Tick(env.now - at)] + Steps(0, verdict, env))
  }

  lemma HeldIsARun(c: Config, s: State, env: Env, buckets: Buckets)
    requires PhaseOf(s, 0).Holding? && PhaseOf(s, 0).q.retryCount >= 0 && s.now <= env.now <= env.ackAt
    ensures var q := PhaseOf(s, 0).q; var verdict := Decide(q.event, env, buckets);
            TurnDone(c, s, [Tick(env.now - s.now)] + Steps(0, verdict, env), Effect(c, s.db, q, verdict, env),
                     if verdict.DeliveredOk? then [Sending(q.event.eventId, env.now)] else [], env.ackAt)
  {
    hide Decide, Effect, Run, After, Steps, AllTidy;
    var wait, verdict := [Tick(env.now - s.now)], Decide(PhaseOf(s, 0).q.event, env, buckets);
    WaitIsARun(c, s, env.now);
    ProcessingIsARun(c, s.(now := env.now), 0, env, buckets);
    RunAppend(c, s, wait, Steps(0, verdict, env));
    StepsAreTidy(verdict, env);
    assert AllTidy(wait) by { WaitIsTidy(env.now - s.now); }
    AllTidyAppend(wait, Steps(0, verdict, env));
  }

  lemma RoundIsARun(c: Config, s: State, id: string, at: int, env: Env, buckets: Buckets)
    requires Inv(c, s) && PhaseOf(s, 0).Idle? && s.now <= at <= env.now <= env.ackAt && Claimable(s.db, id, Unix(at))
    ensures id in s.db.pending && ClaimedEvent(id, s.db.pending[id]).retryCount >= 0
    ensures var q := ClaimedEvent(id, s.db.pending[id]); var verdict := Decide(q.event, env, buckets);
            TurnDone(c, s, RoundSteps(s, id, at, verdict, env), Effect(c, Claim(s.db, id, at, c.lease), q, verdict, env),
                     if verdict.DeliveredOk? then [Sending(q.event.eventId, env.now)] else [], env.ackAt)
  {
    hide Inv, Claimable, ClaimedEvent, Claim, Decide, Effect, Unix, Run, After, Steps, AllTidy;
    ClaimableIsOk(c, s, id, Unix(at));
    var q := ClaimedEvent(id, s.db.pending[id]);
    var claim, rest := [Tick(at - s.now), ClaimNext(0, id)], [Tick(env.now - at)] + Steps(0, Decide(q.event, env, buckets), env);
    var held := s.(now := at, db := Claim(s.db, id, at, c.lease), workers := s.workers[0 := Holding(q)]);
    ClaimIsARun(c, s, id, at);
    HeldIsARun(c, held, env, buckets);
    RunAppend(c, s, claim, rest);
    ClaimIsTidy(at - s.now, id);
    AllTidyAppend(claim, rest);
  }

  lemma StepsAreTidy(verdict: Verdict, env: Env)
    requires env.now <= env.ackAt
    ensures AllTidy(Steps(0, verdict, env))
  {
  }

  /** One round: claims a first event in line, if any is due, and processes it. */
  method Round(worker: Worker, at: int, env: Env) returns (found: bool, id: string, sent: Option<string>)
    requires RowsOk(worker.config, worker.store.Content())
    modifies worker.store, worker.limiter
    ensures !found ==> sent == None && worker.store.Content() == old(worker.store.Content())
    ensures found ==>
              && Claimable(old(worker.store.Content()), id, Unix(at))
              && var row := old(worker.store.pending)[id]; var q := ClaimedEvent(id, row);
                 var verdict := Decide(q.event, env, old(worker.limiter.buckets));
                 && q.retryCount >= 0
                 && worker.store.Content() == Effect(worker.config, Claim(old(worker.store.Content()), id, at, worker.config.lease), q, verdict, env)
                 && sent == if verdict.DeliveredOk? then Some(SentCaption(q.event, env)) else None
  {
    hide Decide, Effect, Claim, ClaimedEvent, SentCaption, RowOk, Unix, NotAfter;
    sent := None;
    var claimed;
    found, id, claimed := worker.store.ClaimNextPendingEvent(at, worker.config.lease);
    if found {
      ClaimedIsOk(worker.config, old(worker.store.Content()), id);
      sent := worker.ProcessQueuedEvent(claimed, env);
    }
  }

  /** One turn of the loop is a run of the machine, whose steps and deliveries it returns. */
  method TakeTurn(worker: Worker, turn: Turn, ghost s: State) returns (delivered: seq<Sending>, ghost steps: seq<Action>)
    requires Inv(worker.config, s) && PhaseOf(s, 0).Idle? && s.db == worker.store.Content() && turn.InOrder(s.now)
    modifies worker.store, worker.limiter
    ensures TurnDone(worker.config, s, steps, worker.store.Content(), delivered, turn.End())
  {
    hide Decide, Effect, Claim, Claimable, ClaimedEvent, Unix, Run, After, RowsOk, AllTidy, Disjoint, WorkersOk;
    delivered := [];
    match turn
    case Arrive(event, at) =>
      ArriveIsARun(worker.config, s, event, at);
      steps := [Tick(at - s.now), Produce(event)];
      var outcome := worker.store.EnqueuePendingEvent(event, at, worker.config.dedupeWindow);
    case Poll(at, env) =>
      ghost var buckets := worker.limiter.buckets;
      var found, id, sent := Round(worker, at, env);
      if found {
        RoundIsARun(worker.config, s, id, at, env, buckets);
        ClaimableIsOk(worker.config, s, id, Unix(at));
        steps := RoundSteps(s, id, at, Decide(ClaimedEvent(id, s.db.pending[id]).event, env, buckets), env);
        if sent.Some? {
          delivered := [Sending(id, env.now)];
        }
      } else {
        IdleRoundIsARun(worker.config, s, at, env.ackAt);
        steps := [Tick(at - s.now)];
      }
  }

  lemma IdleRoundIsARun(c: Config, s: State, at: int, end: int)
    requires PhaseOf(s, 0).Idle? && s.now <= at <= end
    ensures TurnDone(c, s, [Tick(at - s.now)], s.db, [], end)
  {
    hide Run, After;
    WaitIsARun(c, s, at);
  }

  /** The loop over a finite stretch of turns. It is a run of the machine with one careful worker, so it delivers no
      event twice within seven days. */
  method StartProcessor(worker: Worker, turns: seq<Turn>, start: nat) returns (deliveries: seq<Sending>, ghost actions: seq<Action>)
    requires RowsOk(worker.config, worker.store.Content()) && Disjoint(worker.store.Content())
    requires AllInOrder(turns, start)
    modifies worker.store, worker.limiter
    ensures var begin := Start(start).(db := old(worker.store.Content()));
            && CarefulRun(worker.config, begin, actions)
            && After(worker.config, begin, actions).db == worker.store.Content()
            && After(worker.config, begin, actions).hist.sends == deliveries
    ensures Spaced(deliveries)
    ensures RowsOk(worker.config, worker.store.Content()) && Disjoint(worker.store.Content())
  {
    var c := worker.config;
    ghost var begin := Start(start).(db := worker.store.Content());
    ghost var s := begin;
    deliveries, actions := [], [];
    NoSteps(c, begin);
    StartIsSound(c, begin);
    hide Run, After, Inv, AllTidy, SendInv;
    for n := 0 to |turns|
      invariant s.now <= if n == 0 then start else turns[n - 1].End()
      invariant Inv(c, s) && PhaseOf(s, 0).Idle? && s.db == worker.store.Content() && s.hist.sends == deliveries
      invariant Run(c, begin, actions) && After(c, begin, actions) == s && AllTidy(actions)
    {
      assert turns[n].InOrder(s.now);
      var delivered, steps := TakeTurn(worker, turns[n], s);
      RunKeepsInv(c, s, steps);
      RunAppend(c, begin, actions, steps);
      AllTidyAppend(actions, steps);
      s := After(c, s, steps);
      deliveries, actions := deliveries + delivered, actions + steps;
    }
    TidyIsCareful(c, begin, actions);
    CarefulRunKeepsSendInv(c, begin, actions);
    SoundAtEnd(c, s);
  }

  lemma StartIsSound(c: Config, s: State)
    requires s.now >= 0 && s.workers == map[] && s.hist.sends == [] && RowsOk(c, s.db) && Disjoint(s.db)
    ensures Inv(c, s) && SendInv(c, s) && AllTidy([])
  {
    hide RowsOk, Disjoint;
  }

  lemma SoundAtEnd(c: Config, s: State)
    requires SendInv(c, s)
    ensures RowsOk(c, s.db) && Disjoint(s.db) && Spaced(s.hist.sends)
  {
    hide RowsOk, Disjoint, Spaced, SendCovered;
  }

  lemma WaitIsTidy(elapsed: nat)
    ensures AllTidy([Tick(elapsed)])
  {
  }

  lemma ClaimIsTidy(elapsed: nat, id: string)
    ensures AllTidy([Tick(elapsed), ClaimNext(0, id)])
  {
  }

  lemma AllTidyAppend(first: seq<Action>, second: seq<Action>)
    requires AllTidy(first) && AllTidy(second)
    ensures AllTidy(first + second)
  {
  }
}
