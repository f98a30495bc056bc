/** Which minute settings keep the digest accounts balanced. */
module DigestSettings {
  import opened Clock
  import opened Digest
  import opened Horizon
  import opened Machine
  import opened Models
  import opened Tables
  import opened Text
  import Scenarios

  /** Every digest row of the run is buffered with this setting. */
  predicate Uses(actions: seq<Action>, minutes: int) {
    forall i | 0 <= i < |actions| && actions[i].BufferDigest? :: actions[i].minutes == minutes
  }

  /** Every worker step of the run is by worker 0, the one the program starts. */
  predicate Alone(actions: seq<Action>) {
    forall i | 0 <= i < |actions| :: ByOneWorker(actions[i])
  }

  /** With this setting every orderly run, by one worker or by any number, balances whenever no digest is between its send
      and its delete. */
  ghost predicate AlwaysBalances(c: Config, minutes: int, alone: bool) {
    forall start: nat, actions: seq<Action> |
      && OrderlyRun(c, Start(start), actions) && Uses(actions, minutes) && (alone ==> Alone(actions))
      && !After(c, Start(start), actions).sched.Reported? ::
      var t := After(c, Start(start), actions); t.hist.everBuffered == t.hist.reported + |t.db.digest|
  }

  // ---- runs built step by step ----

  /** One worker gets from s to t, orderly and with this setting. */
  predicate Gets(c: Config, s: State, actions: seq<Action>, t: State, minutes: int) {
    OrderlyRun(c, s, actions) && Uses(actions, minutes) && Alone(actions) && After(c, s, actions) == t
  }

  predicate Allowed(c: Config, s: State, a: Action, minutes: int) {
    Enabled(c, s, a) && Orderly(s, a) && ByOneWorker(a) && (a.BufferDigest? ==> a.minutes == minutes)
  }

  lemma NothingYet(c: Config, s: State, minutes: int)
    ensures Gets(c, s, [], s, minutes)
  {
  }

  lemma {:induction false} OrderlyAppend(c: Config, s: State, actions: seq<Action>, a: Action)
    requires OrderlyRun(c, s, actions) && Enabled(c, After(c, s, actions), a) && Orderly(After(c, s, actions), a)
    ensures OrderlyRun(c, s, actions + [a]) && After(c, s, actions + [a]) == Next(c, After(c, s, actions), a)
    decreases |actions|
  {
    hide Enabled, Next, Orderly;
    if actions == [] {
      assert actions + [a] == [a] && [a][1..] == [];
    } else {
      assert (actions + [a])[1..] == actions[1..] + [a];
      OrderlyAppend(c, Next(c, s, actions[0]), actions[1..], a);
    }
  }

  lemma Then(c: Config, s: State, actions: seq<Action>, t: State, a: Action, minutes: int) returns (more: seq<Action>, u: State)
    requires Gets(c, s, actions, t, minutes) && Allowed(c, t, a, minutes)
    ensures Gets(c, s, more, u, minutes) && u == Next(c, t, a)
  {
    hide Enabled, Next, Orderly, OrderlyRun, After, ByOneWorker;
    OrderlyAppend(c, s, actions, a);
    more, u := actions + [a], Next(c, t, a);
  }

  // ---- one event is enqueued, claimed and buffered ----

  predicate Named(id: string) {
    id == "x" || id == "y"
  }

  function Media(id: string): MediaEvent {
    Scenarios.EVENT.(eventId := id)
  }

  const ROUTE := Scenarios.EVENT.route

  function DigestRowAt(now: int, interval: int): DigestRow {
    DigestRow(ROUTE, "", "f", "", Unix(now), Unix(now + interval))
  }

  lemma NamesAreTrimmed(id: string)
    requires Named(id)
    ensures Trim(id) == id != ""
  {
  }

  lemma RouteIsTrimmed()
    ensures TrimRoute(ROUTE) == ROUTE && !HasBlank(ROUTE)
  {
  }

  lemma MediaIsPlain(id: string)
    requires Named(id)
    ensures Prepared(Media(id)) == Media(id) && Complete(Media(id)) && !HasHash(Media(id))
  {
    NamesAreTrimmed(id);
    RouteIsTrimmed();
    assert Trim("") == "";
    hide Trim;
  }

  /** Worker 0 is free and nothing waits to be claimed. */
  predicate Quiescent(s: State) {
    s.db.pending == map[] && PhaseOf(s, 0).Idle?
  }

  /** The same scheduler, clock and digest history. */
  predicate SameDigests(s: State, t: State) {
    t.now == s.now && t.sched == s.sched && t.db.digest == s.db.digest && t.hist.everBuffered == s.hist.everBuffered
    && t.hist.reported == s.hist.reported
  }

  lemma ProduceStep(c: Config, s: State, id: string, minutes: int)
    requires Quiescent(s) && Named(id) && id !in s.db.processed
    ensures Allowed(c, s, Produce(Media(id)), minutes)
    ensures var t := Next(c, s, Produce(Media(id)));
            && SameDigests(s, t) && t.workers == s.workers && t.db.processed == s.db.processed
            && t.db.pending == map[id := FreshRow(Media(id), Unix(s.now))]
  {
    MediaIsPlain(id);
    hide Prepared, Complete, HasHash, Trim, Unix, FreshRow;
  }

  lemma ClaimedPlain(id: string, second: int)
    requires Named(id)
    ensures ClaimedEvent(id, FreshRow(Media(id), second)) == QueuedEvent(Media(id), 0)
  {
    hide Trim;
  }

  lemma OnlyRowIsClaimable(db: Db, id: string, second: int)
    requires db.pending == map[id := FreshRow(Media(id), second)]
    ensures Claimable(db, id, second)
  {
  }

  lemma ClaimEffect(c: Config, s: State, id: string, row: PendingRow)
    requires s.db.pending == map[id := row] && Enabled(c, s, ClaimNext(0, id))
    ensures var t := Next(c, s, ClaimNext(0, id));
            && SameDigests(s, t) && PhaseOf(t, 0) == Holding(ClaimedEvent(id, row)) && t.db.processed == s.db.processed
            && t.db.pending.Keys == {id}
  {
    hide Unix, ClaimedEvent, LeaseEnd, Claimable;
  }

  lemma ClaimAllowed(c: Config, s: State, id: string, minutes: int)
    requires PhaseOf(s, 0).Idle? && Claimable(s.db, id, Unix(s.now))
    ensures Allowed(c, s, ClaimNext(0, id), minutes)
  {
    hide Claimable, Unix;
  }

  lemma ClaimStep(c: Config, s: State, id: string, minutes: int)
    requires PhaseOf(s, 0).Idle? && Named(id) && s.db.pending == map[id := FreshRow(Media(id), Unix(s.now))]
    ensures Allowed(c, s, ClaimNext(0, id), minutes)
    ensures var t := Next(c, s, ClaimNext(0, id));
            && SameDigests(s, t) && PhaseOf(t, 0) == Holding(QueuedEvent(Media(id), 0)) && t.db.processed == s.db.processed
            && t.db.pending.Keys == {id}
  {
    OnlyRowIsClaimable(s.db, id, Unix(s.now));
    ClaimedPlain(id, Unix(s.now));
    ClaimAllowed(c, s, id, minutes);
    hide Unix, ClaimedEvent, Claimable, FreshRow, Media, Next, Named, SameDigests, Enabled, ByOneWorker, Orderly;
    ClaimEffect(c, s, id, FreshRow(Media(id), Unix(s.now)));
  }

  lemma BuffersRow(db: Db, id: string, now: int, interval: int)
    requires Named(id) && id !in db.digest
    ensures Buffer(db, Media(id), now, now + interval) == db.(digest := db.digest[id := DigestRowAt(now, interval)])
  {
    NamesAreTrimmed(id);
    RouteIsTrimmed();
    assert Trim("") == "" && Trim("f") == "f";
    hide Trim, TrimRoute, Unix;
  }

  lemma BufferStep(c: Config, s: State, id: string, minutes: int)
    requires PhaseOf(s, 0) == Holding(QueuedEvent(Media(id), 0)) && Named(id) && id !in s.db.digest
    ensures Allowed(c, s, BufferDigest(0, minutes), minutes)
    ensures var t := Next(c, s, BufferDigest(0, minutes));
            && t.db == s.db.(digest := s.db.digest[id := DigestRowAt(s.now, DigestInterval(minutes))])
            && PhaseOf(t, 0) == Buffered(QueuedEvent(Media(id), 0)) && t.now == s.now && t.sched == s.sched
            && t.hist.everBuffered == s.hist.everBuffered + 1 && t.hist.reported == s.hist.reported
  {
    hide Buffer, DigestInterval, Unix;
    BuffersRow(s.db, id, s.now, DigestInterval(minutes));
  }

  /** What a fresh event adds once it is buffered: one row, due after the setting's delay. */
  predicate RowAdded(s: State, t: State, id: string, minutes: int) {
    && t.now == s.now && t.sched == s.sched
    && t.db.digest == s.db.digest[id := DigestRowAt(s.now, DigestInterval(minutes))]
    && t.hist.everBuffered == s.hist.everBuffered + 1 && t.hist.reported == s.hist.reported
    && t.db.pending.Keys == {id} && t.db.processed == s.db.processed && PhaseOf(t, 0) == Buffered(QueuedEvent(Media(id), 0))
  }

  lemma BufferOne(c: Config, begin: State, before: seq<Action>, s: State, id: string, minutes: int) returns (run: seq<Action>, t: State)
    requires Gets(c, begin, before, s, minutes) && Quiescent(s) && Named(id) && id !in s.db.processed && id !in s.db.digest
    ensures Gets(c, begin, run, t, minutes) && RowAdded(s, t, id, minutes)
  {
    hide Gets, Allowed, Next, FreshRow, Unix, DigestInterval, DigestRowAt, Media;
    ProduceStep(c, s, id, minutes);
    run, t := Then(c, begin, before, s, Produce(Media(id)), minutes);
    ClaimStep(c, t, id, minutes);
    run, t := Then(c, begin, run, t, ClaimNext(0, id), minutes);
    BufferStep(c, t, id, minutes);
    run, t := Then(c, begin, run, t, BufferDigest(0, minutes), minutes);
  }

  lemma AckStep(c: Config, s: State, id: string, minutes: int)
    requires PhaseOf(s, 0) == Buffered(QueuedEvent(Media(id), 0)) && Named(id) && s.db.pending.Keys == {id}
    ensures Allowed(c, s, AckHeld(0), minutes)
    ensures var t := Next(c, s, AckHeld(0));
            SameDigests(s, t) && Quiescent(t) && t.db.processed.Keys == s.db.processed.Keys + {id}
  {
    NamesAreTrimmed(id);
    hide Trim, Unix;
    assert forall k | k in s.db.pending :: k in s.db.pending.Keys;
  }

  // ---- a run that loses a row ----

  lemma StartStep(c: Config, s: State, minutes: int)
    requires s.sched.Off?
    ensures Allowed(c, s, StartPass, minutes) && Next(c, s, StartPass) == s.(sched := Pass(Unix(s.now)))
  {
  }

  /** A row that is due the moment it is buffered. */
  predicate DueAtOnce(row: DigestRow, cutoff: int) {
    row.route == ROUTE && row.deliverAfter <= cutoff
  }

  lemma ListStep(c: Config, s: State, row: DigestRow, minutes: int)
    requires s.sched.Pass? && s.db.digest == map["x" := row] && DueAtOnce(row, s.sched.cutoff)
    ensures Allowed(c, s, ListGroup(ROUTE), minutes)
    ensures Next(c, s, ListGroup(ROUTE)) == s.(sched := Listed(s.sched.cutoff, ROUTE, {"x"}))
  {
    assert DueDigest(s.db, ROUTE, s.sched.cutoff) == {"x"};
    hide DueDigest;
  }

  lemma ReportStep(c: Config, s: State, minutes: int)
    requires s.sched.Listed? && s.sched.rows == {"x"}
    ensures Allowed(c, s, ReportGroup, minutes)
    ensures Next(c, s, ReportGroup) == s.(sched := Reported(s.sched.cutoff, s.sched.route, {"x"}), hist := s.hist.(reported := s.hist.reported + 1))
  {
  }

  lemma DeleteStep(c: Config, s: State, row: DigestRow, minutes: int)
    requires s.sched.Reported? && s.sched.route == ROUTE && s.db.digest == map["x" := row, "y" := row] && DueAtOnce(row, s.sched.cutoff)
    ensures Allowed(c, s, DeleteGroup, minutes)
    ensures Next(c, s, DeleteGroup) == s.(sched := Pass(s.sched.cutoff), db := s.db.(digest := map[]))
  {
    assert DueDigest(s.db, ROUTE, s.sched.cutoff) == {"x", "y"};
    assert s.db.digest - {"x", "y"} == map[];
    hide DueDigest;
  }

  lemma SubSecondIsDueAtOnce(interval: int)
    requires 0 < interval < SECOND
    ensures DueAtOnce(DigestRowAt(0, interval), Unix(0))
  {
  }

  lemma ReportFirst(c: Config, begin: State, before: seq<Action>, s: State, row: DigestRow, minutes: int)
    returns (run: seq<Action>, t: State)
    requires Gets(c, begin, before, s, minutes) && s.sched.Off? && s.db.digest == map["x" := row] && DueAtOnce(row, Unix(s.now))
    ensures Gets(c, begin, run, t, minutes)
    ensures t.sched == Reported(Unix(s.now), ROUTE, {"x"}) && t.db == s.db && t.now == s.now && t.workers == s.workers
    ensures t.hist.everBuffered == s.hist.everBuffered && t.hist.reported == s.hist.reported + 1
  {
    hide Gets, Allowed, Next, DueDigest, Unix, DueAtOnce;
    StartStep(c, s, minutes);
    run, t := Then(c, begin, before, s, StartPass, minutes);
    ListStep(c, t, row, minutes);
    run, t := Then(c, begin, run, t, ListGroup(ROUTE), minutes);
    ReportStep(c, t, minutes);
    run, t := Then(c, begin, run, t, ReportGroup, minutes);
  }

  /** With a delay below a second one worker loses a row: the first event's row is reported, the second event's row is
      buffered before the delete, and the delete takes both. */
  lemma LateRowIsLost(c: Config, minutes: int) returns (run: seq<Action>, t: State)
    requires 0 < DigestInterval(minutes) < SECOND
    ensures Gets(c, Start(0), run, t, minutes)
    ensures t.hist.everBuffered == 2 && t.hist.reported == 1 && t.db.digest == map[] && t.sched.Pass?
  {
    hide Gets, Allowed, Next, DigestInterval, DueDigest, Unix, DigestRowAt, DueAtOnce, Media;
    var begin := Start(0);
    var row := DigestRowAt(0, DigestInterval(minutes));
    SubSecondIsDueAtOnce(DigestInterval(minutes));
    NothingYet(c, begin, minutes);
    run, t := BufferOne(c, begin, [], begin, "x", minutes);
    AckStep(c, t, "x", minutes);
    run, t := Then(c, begin, run, t, AckHeld(0), minutes);
    run, t := ReportFirst(c, begin, run, t, row, minutes);
    run, t := BufferOne(c, begin, run, t, "y", minutes);
    DeleteStep(c, t, row, minutes);
    run, t := Then(c, begin, run, t, DeleteGroup, minutes);
  }

  /** The accounts balance in every orderly run, with rows of this setting, exactly when the setting delays by a second or
      more; and no other setting would do for a single worker. */
  lemma BalancesIffSafe(c: Config, minutes: int, alone: bool)
    ensures AlwaysBalances(c, minutes, alone) <==> SafeSetting(minutes)
  {
    if SafeSetting(minutes) {
      forall start: nat, actions: seq<Action> |
        OrderlyRun(c, Start(start), actions) && Uses(actions, minutes) && !After(c, Start(start), actions).sched.Reported?
        ensures var t := After(c, Start(start), actions); t.hist.everBuffered == t.hist.reported + |t.db.digest|
      {
        DigestAccounting(c, start, actions);
      }
    } else {
      IntervalOfSetting(minutes);
      hide SafeSetting, OrderlyRun, After, Start, DigestInterval;
      var run, t := LateRowIsLost(c, minutes);
    }
  }
}
