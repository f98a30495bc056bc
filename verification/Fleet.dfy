/** Any number of workers, each keeping to its lease: deliveries stay a week apart. */
module Fleet {
  import opened Clock
  import opened Horizon
  import opened Leases
  import opened Machine
  import opened Safety
  import opened Tables
  import opened Text

  /** The second in which the current lease of each worker ends. */
  type LeaseEnds = map<nat, int>

  function NextEnds(c: Config, s: State, a: Action, ends: LeaseEnds): LeaseEnds {
    if a.ClaimNext? then ends[a.w := LeaseEnd(s.now, c.lease)] else ends
  }

  /** The worker holds an event and its lease has not run out. */
  predicate Live(s: State, ends: LeaseEnds, w: nat)
    ensures Live(s, ends, w) ==> !PhaseOf(s, w).Idle? && w in ends
  {
    !PhaseOf(s, w).Idle? && w in ends && Unix(s.now) < ends[w]
  }

  /** Workers act on an event only within their lease and ack what they sent within it; nobody replays an event that is held. */
  predicate Timely(s: State, a: Action, ends: LeaseEnds) {
    match a
    case Filter(w) => Live(s, ends, w)
    case BufferDigest(w, _) => Live(s, ends, w)
    case Send(w) => Live(s, ends, w)
    case AckHeld(w) => Live(s, ends, w)
    case Fail(w, _) => Live(s, ends, w)
    case RateLimited(w) => Live(s, ends, w)
    case Crash(w) => !PhaseOf(s, w).Delivered?
    case Tick(elapsed) => forall w | w in s.workers && s.workers[w].Delivered? :: w in ends && Unix(s.now + elapsed) < ends[w]
    case ReplayLetter(_, _, _) => forall w | w in s.workers && Live(s, ends, w) :: !ReplaysId(s, a, HeldId(s, w))
    case _ => true
  }

  predicate TimelyRun(c: Config, s: State, actions: seq<Action>, ends: LeaseEnds)
    ensures TimelyRun(c, s, actions, ends) ==> Run(c, s, actions)
    decreases |actions|
  {
    actions == [] || (Enabled(c, s, actions[0]) && Timely(s, actions[0], ends)
                      && TimelyRun(c, Next(c, s, actions[0]), actions[1..], NextEnds(c, s, actions[0], ends)))
  }

  /** The row of a live worker's event is leased until the end of the worker's lease. */
  predicate Holds(s: State, ends: LeaseEnds, w: nat)
    requires Live(s, ends, w)
  {
    HeldId(s, w) in s.db.pending && s.db.pending[HeldId(s, w)].availableAt >= ends[w]
  }

  ghost predicate Exclusive(s: State, ends: LeaseEnds) {
    && (forall w | Live(s, ends, w) :: Holds(s, ends, w))
    && (forall v, w | Live(s, ends, v) && Live(s, ends, w) && HeldId(s, v) == HeldId(s, w) :: v == w)
    && (forall w | PhaseOf(s, w).Delivered? :: Live(s, ends, w))
  }

  /** A worker that is live after a step, and did not just claim, was live before it with the same event and did not release it. */
  lemma LiveBefore(c: Config, s: State, a: Action, ends: LeaseEnds, w: nat)
    requires Enabled(c, s, a) && Live(Next(c, s, a), NextEnds(c, s, a, ends), w) && !(a.ClaimNext? && a.w == w)
    ensures Live(s, ends, w) && HeldId(Next(c, s, a), w) == HeldId(s, w) && NextEnds(c, s, a, ends)[w] == ends[w]
    ensures !((a.Filter? || a.AckHeld? || a.Fail? || a.RateLimited?) && a.w == w)
  {
    hide Enqueue, Ack, Reschedule, DeliveryFailure, Replay, Replayable, Buffer, DueDigest, Unix, ClaimedEvent, Claimable, LeaseEnd, Prepared;
    StepClock(c, s, a);
    UnixMonotone(s.now, Next(c, s, a).now);
  }

  /** No timely step of anyone else touches the row of a live worker's event. */
  lemma LiveRowIsUntouched(c: Config, s: State, a: Action, ends: LeaseEnds, w: nat)
    requires Inv(c, s) && Exclusive(s, ends) && Enabled(c, s, a) && Timely(s, a, ends) && Live(s, ends, w)
    requires !((a.Filter? || a.AckHeld? || a.Fail? || a.RateLimited?) && a.w == w)
    ensures !Touches(s, a, HeldId(s, w))
  {
    hide RowsOk, Disjoint, WorkersOk, Trim, Replayable, Unix, NotAfter;
    assert Holds(s, ends, w);
    if a.Filter? || a.AckHeld? || a.Fail? || a.RateLimited? {
      HeldIsOk(c, s, a.w);
    }
  }

  lemma ClaimIsLeased(c: Config, s: State, a: Action, ends: LeaseEnds)
    requires Inv(c, s) && Enabled(c, s, a) && a.ClaimNext?
    ensures var t := Next(c, s, a);
            && !PhaseOf(t, a.w).Idle? && HeldId(t, a.w) == a.id && PhaseOf(t, a.w).Holding?
            && a.id in t.db.pending && t.db.pending[a.id].availableAt == NextEnds(c, s, a, ends)[a.w]
    ensures a.id in s.db.pending && s.db.pending[a.id].availableAt <= Unix(s.now)
  {
    hide RowsOk, Disjoint, WorkersOk, ClaimedEvent, NotAfter, LeaseEnd, Unix;
    ClaimedIsOk(c, s.db, a.id);
  }

  lemma StepKeepsHolds(c: Config, s: State, a: Action, ends: LeaseEnds, w: nat)
    requires Inv(c, s) && Exclusive(s, ends) && Enabled(c, s, a) && Timely(s, a, ends)
    requires Live(Next(c, s, a), NextEnds(c, s, a, ends), w)
    ensures Holds(Next(c, s, a), NextEnds(c, s, a, ends), w)
  {
    hide Inv, Enabled, Next, Timely, Unix;
    if a.ClaimNext? && a.w == w {
      ClaimIsLeased(c, s, a, ends);
    } else {
      LiveBefore(c, s, a, ends, w);
      assert Holds(s, ends, w);
      LiveRowIsUntouched(c, s, a, ends, w);
      hide Exclusive;
      UntouchedRowStays(c, s, a, HeldId(s, w));
    }
  }

  /** A fresh claim cannot be of an event that another live worker holds. */
  lemma ClaimIsOfFreeEvent(c: Config, s: State, a: Action, ends: LeaseEnds, w: nat)
    requires Inv(c, s) && Exclusive(s, ends) && Enabled(c, s, a) && a.ClaimNext? && Live(s, ends, w)
    ensures HeldId(s, w) != a.id
  {
    hide Inv, Enabled, Next, Unix;
    ClaimIsLeased(c, s, a, ends);
    assert Holds(s, ends, w);
  }

  lemma StepKeepsDistinct(c: Config, s: State, a: Action, ends: LeaseEnds, v: nat, w: nat)
    requires Inv(c, s) && Exclusive(s, ends) && Enabled(c, s, a) && v != w
    requires var t, next := Next(c, s, a), NextEnds(c, s, a, ends); Live(t, next, v) && Live(t, next, w)
    ensures HeldId(Next(c, s, a), v) != HeldId(Next(c, s, a), w)
  {
    hide Inv, Enabled, Next, Unix, NextEnds;
    if a.ClaimNext? && (a.w == v || a.w == w) {
      var other := if a.w == v then w else v;
      LiveBefore(c, s, a, ends, other);
      ClaimIsOfFreeEvent(c, s, a, ends, other);
      ClaimIsLeased(c, s, a, ends);
    } else {
      LiveBefore(c, s, a, ends, v);
      LiveBefore(c, s, a, ends, w);
    }
  }

  lemma StepKeepsDeliveredLive(c: Config, s: State, a: Action, ends: LeaseEnds, w: nat)
    requires Inv(c, s) && Exclusive(s, ends) && Enabled(c, s, a) && Timely(s, a, ends) && PhaseOf(Next(c, s, a), w).Delivered?
    ensures Live(Next(c, s, a), NextEnds(c, s, a, ends), w)
  {
    hide Inv, Enqueue, Ack, Reschedule, DeliveryFailure, Replay, Replayable, Buffer, DueDigest, Unix, ClaimedEvent, Claimable, LeaseEnd,
         Prepared, Holds;
    assert PhaseOf(s, w).Delivered? ==> Live(s, ends, w);
  }

  lemma StepKeepsExclusive(c: Config, s: State, a: Action, ends: LeaseEnds)
    requires Inv(c, s) && Exclusive(s, ends) && Enabled(c, s, a) && Timely(s, a, ends)
    ensures Exclusive(Next(c, s, a), NextEnds(c, s, a, ends))
  {
    hide Inv, Enabled, Next, Timely, Live, Holds, NextEnds;
    var t, next := Next(c, s, a), NextEnds(c, s, a, ends);
    forall w | Live(t, next, w) ensures Holds(t, next, w) {
      StepKeepsHolds(c, s, a, ends, w);
    }
    forall v, w | Live(t, next, v) && Live(t, next, w) && HeldId(t, v) == HeldId(t, w) ensures v == w {
      if v != w { StepKeepsDistinct(c, s, a, ends, v, w); }
    }
    forall w | PhaseOf(t, w).Delivered? ensures Live(t, next, w) {
      StepKeepsDeliveredLive(c, s, a, ends, w);
    }
  }

  // ---- sends ----

  /** A past send is more than seven days old, remembered as processed, or about to be acked by the worker that made it. */
  ghost predicate FleetCovered(s: State, sent: Sending) {
    || s.now - sent.at > SEVEN_DAYS
    || (sent.id in s.db.processed && s.db.processed[sent.id] >= Unix(sent.at))
    || exists w :: PhaseOf(s, w).Delivered? && HeldId(s, w) == sent.id
  }

  ghost predicate FleetInv(c: Config, s: State, ends: LeaseEnds) {
    && Inv(c, s)
    && Exclusive(s, ends)
    && (forall i | 0 <= i < |s.hist.sends| :: FleetCovered(s, s.hist.sends[i]) && s.hist.sends[i].at <= s.now)
    && Spaced(s.hist.sends)
  }

  /** A delivered event stays with its worker until its ack marks it. */
  lemma DeliveredStaysOrIsMarked(c: Config, s: State, a: Action, ends: LeaseEnds, w: nat)
    requires Inv(c, s) && Enabled(c, s, a) && Timely(s, a, ends) && PhaseOf(s, w).Delivered?
    ensures var t := Next(c, s, a); var id := HeldId(s, w);
            (PhaseOf(t, w).Delivered? && HeldId(t, w) == id) || (id in t.db.processed && t.db.processed[id] == Unix(s.now))
  {
    hide RowsOk, Disjoint, WorkersOk, Trim, Enqueue, Ack, Reschedule, DeliveryFailure, Replay, Replayable, Buffer, DueDigest, Unix,
         ClaimedEvent, Claimable, LeaseEnd, Prepared;
    HeldIsOk(c, s, w);
  }

  lemma StepKeepsCovered(c: Config, s: State, a: Action, ends: LeaseEnds, sent: Sending)
    requires Inv(c, s) && Enabled(c, s, a) && Timely(s, a, ends) && FleetCovered(s, sent) && sent.at <= s.now
    ensures FleetCovered(Next(c, s, a), sent)
  {
    hide Inv, Enabled, Next, Timely, Unix;
    StepClock(c, s, a);
    UnixMonotone(sent.at, s.now);
    if sent.id in s.db.processed && s.db.processed[sent.id] >= Unix(sent.at) {
      ProcessedMarkStays(c, s, a, sent.id);
      if a.ExpireProcessed? && sent.id in a.ids { ExpiredIsOld(s.db.processed[sent.id], sent.at, s.now); }
    } else if w :| PhaseOf(s, w).Delivered? && HeldId(s, w) == sent.id {
      DeliveredStaysOrIsMarked(c, s, a, ends, w);
    }
  }

  /** A live worker that has not sent yet sends an event whose earlier sends are all more than seven days old. */
  lemma EarlierSendsAreOld(c: Config, s: State, ends: LeaseEnds, w: nat, sent: Sending)
    requires Inv(c, s) && Exclusive(s, ends) && Live(s, ends, w) && PhaseOf(s, w).Holding?
    requires FleetCovered(s, sent) && sent.id == HeldId(s, w)
    ensures s.now - sent.at > SEVEN_DAYS
  {
    hide RowsOk, WorkersOk, Unix;
    assert Holds(s, ends, w);
    forall v | PhaseOf(s, v).Delivered? ensures HeldId(s, v) != HeldId(s, w) {
      assert Live(s, ends, v);
    }
  }

  lemma SendAppends(c: Config, s: State, a: Action)
    requires Enabled(c, s, a)
    ensures !a.Send? ==> Next(c, s, a).hist.sends == s.hist.sends
    ensures a.Send? ==>
              var t := Next(c, s, a);
              && PhaseOf(s, a.w).Holding? && t.hist.sends == s.hist.sends + [Sending(HeldId(s, a.w), s.now)] && t.now == s.now
              && PhaseOf(t, a.w).Delivered? && HeldId(t, a.w) == HeldId(s, a.w)
  {
    hide Enqueue, Ack, Reschedule, DeliveryFailure, Replay, Replayable, Buffer, DueDigest, Unix, ClaimedEvent, Claimable, LeaseEnd, Prepared;
  }

  lemma StepKeepsFleet(c: Config, s: State, a: Action, ends: LeaseEnds)
    requires FleetInv(c, s, ends) && Enabled(c, s, a) && Timely(s, a, ends)
    ensures FleetInv(c, Next(c, s, a), NextEnds(c, s, a, ends))
  {
    hide Inv, Enabled, Next, Exclusive, NextEnds, FleetCovered, Live;
    var t := Next(c, s, a);
    StepKeepsInv(c, s, a);
    StepKeepsExclusive(c, s, a, ends);
    StepClock(c, s, a);
    SendAppends(c, s, a);
    forall i | 0 <= i < |s.hist.sends| ensures FleetCovered(t, s.hist.sends[i]) {
      StepKeepsCovered(c, s, a, ends, s.hist.sends[i]);
    }
    if a.Send? {
      var sent := Sending(HeldId(s, a.w), s.now);
      NewSendIsCovered(t, a.w, sent);
      forall i | 0 <= i < |s.hist.sends| && s.hist.sends[i].id == sent.id ensures sent.at - s.hist.sends[i].at > SEVEN_DAYS {
        EarlierSendsAreOld(c, s, ends, a.w, s.hist.sends[i]);
      }
    }
  }

  lemma NewSendIsCovered(t: State, w: nat, sent: Sending)
    requires PhaseOf(t, w).Delivered? && HeldId(t, w) == sent.id
    ensures FleetCovered(t, sent)
  {
  }

  lemma {:induction false} RunKeepsFleet(c: Config, s: State, actions: seq<Action>, ends: LeaseEnds)
    requires FleetInv(c, s, ends) && TimelyRun(c, s, actions, ends)
    ensures Spaced(After(c, s, actions).hist.sends)
    decreases |actions|
  {
    hide Inv, Enabled, Next, Exclusive, Timely, NextEnds, FleetCovered, Spaced;
    if actions != [] {
      StepKeepsFleet(c, s, actions[0], ends);
      RunKeepsFleet(c, Next(c, s, actions[0]), actions[1..], NextEnds(c, s, actions[0], ends));
    }
  }

  /** Any number of workers that act within their leases, and ack what they sent within them, never deliver an event twice
      within seven days. */
  lemma FleetSendsOnceInSevenDays(c: Config, start: nat, actions: seq<Action>)
    requires TimelyRun(c, Start(start), actions, map[])
    ensures Spaced(After(c, Start(start), actions).hist.sends)
  {
    hide TimelyRun, After, Run;
    RunKeepsFleet(c, Start(start), actions, map[]);
  }
}
