/** Which minute settings keep retention, which goes by age, from taking digest rows before they are due. */
module DigestRetention {
  import opened Clock
  import opened DigestSettings
  import opened Machine
  import opened Models
  import opened Tables
  import Digest
  import Text

  /** A week and the second that rounding can add. */
  const LONGEST := SEVEN_DAYS + SECOND

  /** Some retention pass takes a row buffered now before a scheduler pass can find it due, exactly when the row is due
      more than a week and a second after the second it was buffered in. */
  lemma ExpiresBeforeDueIff(now: int, interval: int)
    ensures (exists t :: now <= t && Unix(now) < Unix(t - SEVEN_DAYS) && Unix(t) < Unix(now + interval))
       <==> Unix(now + interval) > Unix(now) + LONGEST / SECOND
  {
    if Unix(now + interval) > Unix(now) + LONGEST / SECOND {
      var t := (Unix(now) + LONGEST / SECOND) * SECOND;
      assert now <= t && Unix(now) < Unix(t - SEVEN_DAYS) && Unix(t) < Unix(now + interval);
    }
  }

  /** For the settings whose nanoseconds fit an int64: ten thousand and eighty minutes, seven days. */
  lemma LongestSetting(minutes: int)
    requires -TWO_63 <= minutes * MINUTE < TWO_63
    ensures DigestInterval(minutes) <= LONGEST <==> minutes <= 10_080
  {
  }

  /** With this setting retention, in every run, by one worker or by any number, takes only rows that are already due. */
  ghost predicate TakesOnlyDue(c: Config, minutes: int, alone: bool) {
    forall start: nat, actions: seq<Action>, ids: set<string>, id: string |
      && Run(c, Start(start), actions) && Uses(actions, minutes) && (alone ==> Alone(actions))
      && Enabled(c, After(c, Start(start), actions), ExpireDigest(ids)) && id in ids ::
      var t := After(c, Start(start), actions); t.db.digest[id].deliverAfter <= Unix(t.now)
  }

  /** Every row is due at most a week and a second after it was buffered. */
  predicate DueWithinWeek(s: State) {
    forall id | id in s.db.digest :: s.db.digest[id].deliverAfter <= s.db.digest[id].createdAt + LONGEST / SECOND
  }

  lemma ShortDelayIsWithinWeek(now: int, interval: int)
    requires interval <= LONGEST
    ensures Unix(now + interval) <= Unix(now) + LONGEST / SECOND
  {
    UnixShift(now, LONGEST / SECOND);
    UnixMonotone(now + interval, now + LONGEST);
  }

  lemma BufferKeepsDueWithinWeek(c: Config, s: State, w: nat, minutes: int)
    requires DueWithinWeek(s) && Enabled(c, s, BufferDigest(w, minutes)) && DigestInterval(minutes) <= LONGEST
    ensures DueWithinWeek(AfterBuffer(s, w, minutes))
  {
    ShortDelayIsWithinWeek(s.now, DigestInterval(minutes));
    hide DigestInterval, Unix, Text.Trim, TrimRoute, HasBlank;
  }

  lemma OtherStepsAddNoRow(c: Config, s: State, a: Action)
    requires Enabled(c, s, a) && !a.BufferDigest?
    ensures Next(c, s, a).db.digest.Keys <= s.db.digest.Keys
    ensures forall id | id in Next(c, s, a).db.digest :: Next(c, s, a).db.digest[id] == s.db.digest[id]
  {
    hide DueDigest, Unix;
    if !a.DeleteGroup? && !a.DropGroup? && !a.ExpireDigest? {
      hide *;
      Digest.StepKeepsDigest(c, s, a);
    }
  }

  lemma StepKeepsDueWithinWeek(c: Config, s: State, a: Action)
    requires DueWithinWeek(s) && Enabled(c, s, a) && (a.BufferDigest? ==> DigestInterval(a.minutes) <= LONGEST)
    ensures DueWithinWeek(Next(c, s, a))
  {
    hide DigestInterval, Enabled, AfterBuffer;
    if a.BufferDigest? {
      BufferKeepsDueWithinWeek(c, s, a.w, a.minutes);
    } else {
      hide Next;
      OtherStepsAddNoRow(c, s, a);
    }
  }

  predicate ShortSettings(actions: seq<Action>) {
    forall i | 0 <= i < |actions| && actions[i].BufferDigest? :: DigestInterval(actions[i].minutes) <= LONGEST
  }

  lemma {:induction false} RunKeepsDueWithinWeek(c: Config, s: State, actions: seq<Action>)
    requires DueWithinWeek(s) && Run(c, s, actions) && ShortSettings(actions)
    ensures DueWithinWeek(After(c, s, actions))
    decreases |actions|
  {
    hide DueWithinWeek, Enabled, Next, DigestInterval;
    if actions != [] {
      StepKeepsDueWithinWeek(c, s, actions[0]);
      RunKeepsDueWithinWeek(c, Next(c, s, actions[0]), actions[1..]);
    }
  }

  /** As long as no setting delays by more than a week and a second, retention takes only rows that are already due. */
  lemma RetentionTakesOnlyDue(c: Config, start: nat, actions: seq<Action>, ids: set<string>, id: string)
    requires Run(c, Start(start), actions) && ShortSettings(actions)
    requires Enabled(c, After(c, Start(start), actions), ExpireDigest(ids)) && id in ids
    ensures var t := After(c, Start(start), actions); t.db.digest[id].deliverAfter <= Unix(t.now)
  {
    RunKeepsDueWithinWeek(c, Start(start), actions);
    OldRowsAreDue(c, After(c, Start(start), actions), ids, id);
  }

  lemma OldRowsAreDue(c: Config, t: State, ids: set<string>, id: string)
    requires DueWithinWeek(t) && Enabled(c, t, ExpireDigest(ids)) && id in ids
    ensures t.db.digest[id].deliverAfter <= Unix(t.now)
  {
    UnixShift(t.now, -(SEVEN_DAYS / SECOND));
  }

  /** A setting beyond the limit lets one worker buffer a row that retention takes before it is due, however often the
      scheduler looks. */
  lemma RowIsTakenEarly(c: Config, minutes: int) returns (run: seq<Action>, t: State)
    requires DigestInterval(minutes) > LONGEST
    ensures Gets(c, Start(SECOND - 1), run, t, minutes)
    ensures Enabled(c, t, ExpireDigest({"x"})) && t.db.digest["x"].deliverAfter > Unix(t.now)
    ensures forall route :: DueDigest(t.db, route, Unix(t.now)) == {}
  {
    hide DigestInterval, Gets, Unix, Next, DueDigest;
    var begin := Start(SECOND - 1);
    NothingYet(c, begin, minutes);
    run, t := BufferOne(c, begin, [], begin, "x", minutes);
    TickStep(c, t, LONGEST, minutes);
    run, t := Then(c, begin, run, t, Tick(LONGEST), minutes);
    LateRowIsOld(c, t, DigestInterval(minutes));
  }

  lemma TickStep(c: Config, s: State, elapsed: nat, minutes: int)
    ensures Allowed(c, s, Tick(elapsed), minutes) && Next(c, s, Tick(elapsed)) == s.(now := s.now + elapsed)
  {
  }

  lemma LateRowIsOld(c: Config, t: State, interval: int)
    requires interval > LONGEST && t.now == SECOND - 1 + LONGEST && t.db.digest == map["x" := DigestRowAt(SECOND - 1, interval)]
    ensures Enabled(c, t, ExpireDigest({"x"})) && t.db.digest["x"].deliverAfter > Unix(t.now)
    ensures forall route :: DueDigest(t.db, route, Unix(t.now)) == {}
  {
  }

  /** Retention takes only rows that are due, in every run with rows of this setting, exactly when the setting delays by at
      most a week and a second. */
  lemma TakesOnlyDueIff(c: Config, minutes: int, alone: bool)
    ensures TakesOnlyDue(c, minutes, alone) <==> DigestInterval(minutes) <= LONGEST
  {
    if DigestInterval(minutes) <= LONGEST {
      forall start: nat, actions: seq<Action>, ids: set<string>, id: string |
        Run(c, Start(start), actions) && Uses(actions, minutes)
        && Enabled(c, After(c, Start(start), actions), ExpireDigest(ids)) && id in ids
        ensures var t := After(c, Start(start), actions); t.db.digest[id].deliverAfter <= Unix(t.now)
      {
        RetentionTakesOnlyDue(c, start, actions, ids, id);
      }
    } else {
      hide DigestInterval, After, Run, Start, Enabled, Unix, Digest.OrderlyRun;
      var run, t := RowIsTakenEarly(c, minutes);
    }
  }
}
