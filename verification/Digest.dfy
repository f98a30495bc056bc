/** Digest buffering and delivery: every buffered row is reported once. */
module Digest {
  import opened Clock
  import opened Machine
  import opened Models
  import opened Tables
  import opened Text

  /** Settings whose delay is at least a second: the int64 product is a second or more, or not positive and read as a day. */
  predicate SafeSetting(minutes: int) {
    var product := Wrap64(minutes * MINUTE);
    product <= 0 || product >= SECOND
  }

  /** What a minute setting delays by: itself when positive, a day otherwise, as long as its nanoseconds fit in an int64;
      at least a second exactly when it is safe. */
  lemma IntervalOfSetting(minutes: int)
    ensures 0 < minutes * MINUTE < TWO_63 ==> DigestInterval(minutes) == minutes * MINUTE >= MINUTE
    ensures -TWO_63 <= minutes * MINUTE <= 0 ==> DigestInterval(minutes) == DAY
    ensures -TWO_63 <= minutes * MINUTE < TWO_63 ==> SafeSetting(minutes)
    ensures DigestInterval(minutes) >= SECOND <==> SafeSetting(minutes)
  {
  }

  /** An overflowing setting can delay by microseconds. */
  lemma OverflowingSetting()
    ensures DigestInterval(3_749_353_613_647_811) == 2048 && !SafeSetting(3_749_353_613_647_811)
  {
    assert 3_749_353_613_647_811 * MINUTE + TWO_63 == 12195172 * TWO_64 + (TWO_63 + 2048);
  }

  /** No pairing is removed, no retention runs, and the scheduler does not stop between a send and its delete. */
  predicate Orderly(s: State, a: Action) {
    !a.DropGroup? && !a.ExpireDigest? && (a.SchedulerCrash? ==> !s.sched.Reported?)
  }

  predicate OrderlyRun(c: Config, s: State, actions: seq<Action>)
    ensures OrderlyRun(c, s, actions) ==> Run(c, s, actions)
    decreases |actions|
  {
    actions == [] || (Enabled(c, s, actions[0]) && Orderly(s, actions[0]) && OrderlyRun(c, Next(c, s, actions[0]), actions[1..]))
  }

  predicate SafeSettings(actions: seq<Action>) {
    forall i | 0 <= i < |actions| && actions[i].BufferDigest? :: SafeSetting(actions[i].minutes)
  }

  predicate SchedOk(s: State) {
    match s.sched
    case Off => true
    case Pass(cutoff) => cutoff <= Unix(s.now)
    case Listed(cutoff, route, rows) => cutoff <= Unix(s.now) && DueDigest(s.db, route, cutoff) == rows
    case Reported(cutoff, route, rows) => cutoff <= Unix(s.now) && DueDigest(s.db, route, cutoff) == rows
  }

  /** Rows already reported but not yet deleted. */
  function InFlight(s: State): nat {
    if s.sched.Reported? then |s.sched.rows| else 0
  }

  predicate Balanced(s: State) {
    SchedOk(s) && s.hist.everBuffered + InFlight(s) == s.hist.reported + |s.db.digest|
  }

  /** A new row is due at a cutoff exactly when the second its delay ends in is; all other rows are due as before. */
  lemma NewRowIsDueIff(db: Db, event: MediaEvent, now: int, interval: int, route: Route, cutoff: int)
    requires DigestError(event).None? && Trim(event.eventId) !in db.digest
    ensures DueDigest(Buffer(db, event, now, now + interval), route, cutoff)
         == DueDigest(db, route, cutoff)
            + if route == TrimRoute(event.route) && Unix(now + interval) <= cutoff then {Trim(event.eventId)} else {}
  {
    hide Trim, TrimRoute, Unix;
    assert !HasBlank(TrimRoute(event.route));
  }

  /** A row whose delay is at least a second is not due at a cutoff already taken. */
  lemma NewRowIsNotDue(db: Db, event: MediaEvent, now: int, interval: int, route: Route, cutoff: int)
    requires interval >= SECOND && cutoff <= Unix(now)
    ensures DueDigest(Buffer(db, event, now, now + interval), route, cutoff) == DueDigest(db, route, cutoff)
  {
    hide Buffer, Trim, Unix;
    UnixShift(now, 1);
    UnixMonotone(now + SECOND, now + interval);
  }

  lemma DeleteCounts(db: Db, route: Route, cutoff: int)
    ensures |db.digest - DueDigest(db, route, cutoff)| + |DueDigest(db, route, cutoff)| == |db.digest|
  {
    var due := DueDigest(db, route, cutoff);
    assert (db.digest - due).Keys == db.digest.Keys - due;
    assert |db.digest.Keys - due| + |due| == |db.digest.Keys|;
  }

  lemma StepKeepsDigest(c: Config, s: State, a: Action)
    requires Enabled(c, s, a) && !a.BufferDigest? && !a.DropGroup? && !a.ExpireDigest? && !a.DeleteGroup?
    ensures Next(c, s, a).db.digest == s.db.digest && Next(c, s, a).hist.everBuffered == s.hist.everBuffered
    ensures s.now <= Next(c, s, a).now
    ensures !a.StartPass? && !a.ListGroup? && !a.SkipGroup? && !a.ReportGroup? && !a.EndPass? && !a.SchedulerCrash? ==>
              Next(c, s, a).sched == s.sched && Next(c, s, a).hist.reported == s.hist.reported
  {
    hide Enqueue, Ack, Reschedule, DeliveryFailure, Replay, Replayable, DueDigest, Unix, ClaimedEvent, NotAfter, Trim,
         Prepared, LeaseEnd;
  }

  lemma StepKeepsBalance(c: Config, s: State, a: Action)
    requires Balanced(s) && Enabled(c, s, a) && Orderly(s, a) && (a.BufferDigest? ==> SafeSetting(a.minutes))
    ensures Balanced(Next(c, s, a))
  {
    hide Enqueue, Ack, Reschedule, DeliveryFailure, Replay, Replayable, DueDigest, Unix, ClaimedEvent, NotAfter, Trim,
         Prepared, LeaseEnd, Buffer;
    if a.BufferDigest? {
      var q := PhaseOf(s, a.w).q;
      IntervalOfSetting(a.minutes);
      if !s.sched.Off? && !s.sched.Pass? {
        NewRowIsNotDue(s.db, q.event, s.now, DigestInterval(a.minutes), s.sched.route, s.sched.cutoff);
      }
    } else if a.DeleteGroup? {
      DeleteCounts(s.db, s.sched.route, s.sched.cutoff);
    } else {
      StepKeepsDigest(c, s, a);
      UnixMonotone(s.now, Next(c, s, a).now);
      SameDigestSameDue(s.db, Next(c, s, a).db);
    }
  }

  lemma SameDigestSameDue(db: Db, after: Db)
    requires db.digest == after.digest
    ensures forall route, cutoff :: DueDigest(db, route, cutoff) == DueDigest(after, route, cutoff)
  {
  }

  lemma {:induction false} RunKeepsBalance(c: Config, s: State, actions: seq<Action>)
    requires Balanced(s) && OrderlyRun(c, s, actions) && SafeSettings(actions)
    ensures Balanced(After(c, s, actions))
    decreases |actions|
  {
    hide Balanced, Enabled, Next, Orderly, SafeSetting;
    if actions != [] {
      StepKeepsBalance(c, s, actions[0]);
      RunKeepsBalance(c, Next(c, s, actions[0]), actions[1..]);
    }
  }

  /** Whenever no digest is between its send and its delete, the rows ever buffered are the rows reported plus the rows
      still waiting. */
  lemma DigestAccounting(c: Config, start: nat, actions: seq<Action>)
    requires OrderlyRun(c, Start(start), actions) && SafeSettings(actions)
    requires !After(c, Start(start), actions).sched.Reported?
    ensures var t := After(c, Start(start), actions); t.hist.everBuffered == t.hist.reported + |t.db.digest|
  {
    hide DueDigest, OrderlyRun, SafeSettings;
    RunKeepsBalance(c, Start(start), actions);
  }

  lemma DeleteTakesTheReported(c: Config, t: State)
    requires Balanced(t) && t.sched.Reported?
    ensures Next(c, t, DeleteGroup).db.digest == t.db.digest - t.sched.rows
  {
    hide DueDigest, Unix;
  }

  /** The rows deleted after a send are exactly the rows that were listed and counted, whatever was buffered in between. */
  lemma DeletesExactlyWhatWasSent(c: Config, start: nat, actions: seq<Action>)
    requires OrderlyRun(c, Start(start), actions) && SafeSettings(actions)
    requires After(c, Start(start), actions).sched.Reported?
    ensures var t := After(c, Start(start), actions);
            Next(c, t, DeleteGroup).db.digest == t.db.digest - t.sched.rows
  {
    var t := After(c, Start(start), actions);
    assert Balanced(t) by { RunKeepsBalance(c, Start(start), actions); }
    DeleteTakesTheReported(c, t);
  }

  lemma RestartedRun(c: Config, s: State)
    ensures var t := s.(sched := Pass(Unix(s.now)));
            Run(c, s, [SchedulerCrash, StartPass]) && After(c, s, [SchedulerCrash, StartPass]) == t
  {
    hide Unix, Run, After;
    NoSteps(c, s.(sched := Pass(Unix(s.now))));
    TwoSteps(c, s, SchedulerCrash, StartPass, []);
    assert [SchedulerCrash, StartPass] + [] == [SchedulerCrash, StartPass];
  }

  /** The accounting needs the delete: after a scheduler crash between send and delete the next pass finds the same rows
      due, and more rows are reported or waiting than were ever buffered. */
  lemma CrashBeforeDeleteReportsTwice(c: Config, s: State)
    requires Balanced(s) && s.sched.Reported? && s.sched.rows != {}
    ensures Run(c, s, [SchedulerCrash, StartPass])
    ensures var t := After(c, s, [SchedulerCrash, StartPass]);
            && Enabled(c, t, ListGroup(s.sched.route))
            && s.sched.rows <= DueDigest(t.db, s.sched.route, Unix(t.now))
            && t.hist.everBuffered < t.hist.reported + |t.db.digest|
  {
    hide Unix, Run, After, Next;
    LaterCutoffKeepsDue(s.db, s.sched.route, s.sched.cutoff, Unix(s.now));
    hide DueDigest;
    RestartedRun(c, s);
  }

  lemma LaterCutoffKeepsDue(db: Db, route: Route, cutoff: int, later: int)
    requires cutoff <= later
    ensures DueDigest(db, route, cutoff) <= DueDigest(db, route, later)
  {
  }
}
