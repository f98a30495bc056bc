/** Batched retention: each loop equals one filtered delete and never reaches the pending table. */
module Retention {
  import opened Clock
  import opened Machine
  import opened QueueStore
  import opened Tables

  const BATCH := 500

  function Expired<K>(stamps: map<K, int>, cutoff: int): set<K> {
    set k | k in stamps && stamps[k] < cutoff
  }

  /** The subquery with its LIMIT: some expired rows, all of them when they fit in one batch. */
  method PickBatch<K>(stamps: map<K, int>, cutoff: int) returns (batch: set<K>)
    ensures batch <= Expired(stamps, cutoff) && |batch| <= BATCH
    ensures |batch| == BATCH || batch == Expired(stamps, cutoff)
  {
    batch := {};
    var rest := Expired(stamps, cutoff);
    while |batch| < BATCH && rest != {}
      invariant batch !! rest && batch + rest == Expired(stamps, cutoff) && |batch| <= BATCH
      decreases rest
    {
      var k :| k in rest;
      batch := batch + {k};
      rest := rest - {k};
    }
  }

  lemma ExpiredAfter<K>(stamps: map<K, int>, cutoff: int, deleted: set<K>)
    ensures Expired(stamps - deleted, cutoff) == Expired(stamps, cutoff) - deleted
  {
  }

  /** cleanupTable on the stamps of a table: the rows it deletes and the number of deletes that hit any. */
  method CleanupTable<K>(stamps: map<K, int>, cutoff: int) returns (deleted: set<K>, batches: nat)
    ensures deleted == Expired(stamps, cutoff)
    ensures BATCH * batches - BATCH < |deleted| <= BATCH * batches || batches == |deleted| == 0
  {
    deleted, batches := {}, 0;
    while true
      invariant deleted <= Expired(stamps, cutoff)
      invariant |deleted| == BATCH * batches || (BATCH * batches - BATCH < |deleted| < BATCH * batches && deleted == Expired(stamps, cutoff))
      decreases Expired(stamps, cutoff) - deleted
    {
      ExpiredAfter(stamps, cutoff, deleted);
      var batch := PickBatch(stamps - deleted, cutoff);
      if |batch| == 0 {
        break;
      }
      assert |deleted + batch| == |deleted| + |batch|;
      deleted := deleted + batch;
      batches := batches + 1;
    }
  }

  function KeepSince<K>(stamps: map<K, int>, cutoff: int): map<K, int> {
    map k | k in stamps && stamps[k] >= cutoff :: stamps[k]
  }

  function KeepLetters(dead: map<nat, DeadRow>, cutoff: int): map<nat, DeadRow> {
    map k | k in dead && dead[k].failedAt >= cutoff :: dead[k]
  }

  function KeepDigest(digest: map<string, DigestRow>, cutoff: int): map<string, DigestRow> {
    map id | id in digest && digest[id].createdAt >= cutoff :: digest[id]
  }

  function FailedAts(dead: map<nat, DeadRow>): map<nat, int> {
    map k | k in dead :: dead[k].failedAt
  }

  function CreatedAts(digest: map<string, DigestRow>): map<string, int> {
    map id | id in digest :: digest[id].createdAt
  }

  /** The clock readings of one clean-up, one per table. */
  datatype Readings = Readings(processed: int, dead: int, digest: int, dedupe: int)
  {
    predicate InOrder(start: int) {
      start <= processed <= dead <= digest <= dedupe
    }
  }

  /** What a clean-up leaves of the tables: one filter each, and every pending event. */
  function Retained(db: Db, at: Readings, window: int): Db {
    Db(db.pending,
       KeepSince(db.processed, Unix(at.processed - SEVEN_DAYS)),
       KeepLetters(db.dead, Unix(at.dead - FOURTEEN_DAYS)),
       db.nextDead,
       KeepSince(db.dedupe, Unix(at.dedupe - window * SECOND)),
       KeepDigest(db.digest, Unix(at.digest - SEVEN_DAYS)))
  }

  /** What stays of each table: the pending events, and every row at most seven days old, fourteen for a letter, the
      duplicate window for a fingerprint; nothing else goes and nothing changes. */
  lemma RetainedExactly(db: Db, at: Readings, window: int)
    ensures var after := Retained(db, at, window);
            && after.pending == db.pending && after.nextDead == db.nextDead
            && (forall id :: id in after.processed <==> id in db.processed && db.processed[id] >= Unix(at.processed - 7 * DAY))
            && (forall k :: k in after.dead <==> k in db.dead && db.dead[k].failedAt >= Unix(at.dead - 14 * DAY))
            && (forall id :: id in after.digest <==> id in db.digest && db.digest[id].createdAt >= Unix(at.digest - 7 * DAY))
            && (forall key :: key in after.dedupe <==> key in db.dedupe && db.dedupe[key] >= Unix(at.dedupe - window * SECOND))
            && (forall id | id in after.processed :: after.processed[id] == db.processed[id])
            && (forall k | k in after.dead :: after.dead[k] == db.dead[k])
            && (forall id | id in after.digest :: after.digest[id] == db.digest[id])
            && (forall key | key in after.dedupe :: after.dedupe[key] == db.dedupe[key])
  {
    hide Unix;
  }

  lemma ExpiredGone<K>(stamps: map<K, int>, cutoff: int)
    ensures stamps - Expired(stamps, cutoff) == KeepSince(stamps, cutoff)
  {
  }

  lemma LettersGone(dead: map<nat, DeadRow>, cutoff: int)
    ensures dead - Expired(FailedAts(dead), cutoff) == KeepLetters(dead, cutoff)
  {
  }

  lemma DigestGone(digest: map<string, DigestRow>, cutoff: int)
    ensures digest - Expired(CreatedAts(digest), cutoff) == KeepDigest(digest, cutoff)
  {
  }

  /** RunRetentionCleanup on the modelled tables: the batched clean-ups in order, each with its own reading of the clock. */
  method RunRetentionCleanup(store: Store, at: Readings, window: int)
    modifies store
    ensures store.Content() == Retained(old(store.Content()), at, window)
  {
    hide Unix, Expired, KeepSince, KeepLetters, KeepDigest, FailedAts, CreatedAts;
    var cutoff := Unix(at.processed - SEVEN_DAYS);
    ExpiredGone(store.processed, cutoff);
    var processed, n1 := CleanupTable(store.processed, cutoff);
    store.processed := store.processed - processed;
    cutoff := Unix(at.dead - FOURTEEN_DAYS);
    LettersGone(store.dead, cutoff);
    var letters, n2 := CleanupTable(FailedAts(store.dead), cutoff);
    store.dead := store.dead - letters;
    cutoff := Unix(at.digest - SEVEN_DAYS);
    DigestGone(store.digest, cutoff);
    var digests, n3 := CleanupTable(CreatedAts(store.digest), cutoff);
    store.digest := store.digest - digests;
    cutoff := Unix(at.dedupe - window * SECOND);
    ExpiredGone(store.dedupe, cutoff);
    var hashes, n4 := CleanupTable(store.dedupe, cutoff);
    store.dedupe := store.dedupe - hashes;
  }

  // ---- as steps of the machine ----

  lemma ProcessedStep(c: Config, s: State, at: int)
    requires s.now <= at
    ensures var cutoff := Unix(at - SEVEN_DAYS); var steps := [Tick(at - s.now), ExpireProcessed(Expired(s.db.processed, cutoff))];
            Run(c, s, steps) && After(c, s, steps) == s.(now := at, db := s.db.(processed := KeepSince(s.db.processed, cutoff)))
  {
    hide Unix, KeepSince, Run, After;
    var cutoff := Unix(at - SEVEN_DAYS);
    var a := ExpireProcessed(Expired(s.db.processed, cutoff));
    ExpiredGone(s.db.processed, cutoff);
    TickThen(c, s, at, a);
  }

  lemma DeadStep(c: Config, s: State, at: int)
    requires s.now <= at
    ensures var cutoff := Unix(at - FOURTEEN_DAYS); var steps := [Tick(at - s.now), ExpireDead(Expired(FailedAts(s.db.dead), cutoff))];
            Run(c, s, steps) && After(c, s, steps) == s.(now := at, db := s.db.(dead := KeepLetters(s.db.dead, cutoff)))
  {
    hide Unix, KeepLetters, Run, After;
    var cutoff := Unix(at - FOURTEEN_DAYS);
    LettersGone(s.db.dead, cutoff);
    TickThen(c, s, at, ExpireDead(Expired(FailedAts(s.db.dead), cutoff)));
  }

  lemma DigestStep(c: Config, s: State, at: int)
    requires s.now <= at
    ensures var cutoff := Unix(at - SEVEN_DAYS); var steps := [Tick(at - s.now), ExpireDigest(Expired(CreatedAts(s.db.digest), cutoff))];
            Run(c, s, steps) && After(c, s, steps) == s.(now := at, db := s.db.(digest := KeepDigest(s.db.digest, cutoff)))
  {
    hide Unix, KeepDigest, Run, After;
    var cutoff := Unix(at - SEVEN_DAYS);
    DigestGone(s.db.digest, cutoff);
    TickThen(c, s, at, ExpireDigest(Expired(CreatedAts(s.db.digest), cutoff)));
  }

  lemma DedupeStep(c: Config, s: State, at: int)
    requires s.now <= at
    ensures var cutoff := Unix(at - c.dedupeWindow * SECOND);
            var steps := [Tick(at - s.now), ExpireDedupe(Expired(s.db.dedupe, cutoff))];
            Run(c, s, steps) && After(c, s, steps) == s.(now := at, db := s.db.(dedupe := KeepSince(s.db.dedupe, cutoff)))
  {
    hide Unix, KeepSince, Run, After;
    var cutoff := Unix(at - c.dedupeWindow * SECOND);
    ExpiredGone(s.db.dedupe, cutoff);
    TickThen(c, s, at, ExpireDedupe(Expired(s.db.dedupe, cutoff)));
  }

  lemma TickThen(c: Config, s: State, at: int, a: Action)
    requires s.now <= at && Enabled(c, s.(now := at), a)
    ensures Run(c, s, [Tick(at - s.now), a]) && After(c, s, [Tick(at - s.now), a]) == Next(c, s.(now := at), a)
  {
    hide Run, After;
    var ticked := s.(now := at);
    TickStep(c, s, at);
    hide Next, Enabled;
    NoSteps(c, Next(c, ticked, a));
    TwoSteps(c, s, Tick(at - s.now), a, []);
    assert [Tick(at - s.now), a] + [] == [Tick(at - s.now), a];
  }

  lemma TickStep(c: Config, s: State, at: int)
    requires s.now <= at
    ensures Enabled(c, s, Tick(at - s.now)) && Next(c, s, Tick(at - s.now)) == s.(now := at)
  {
  }

  /** A clean-up as retention steps of the machine, between which the clock goes on. */
  function Cleanup(c: Config, s: State, at: Readings): seq<Action>
    requires at.InOrder(s.now)
  {
    [Tick(at.processed - s.now), ExpireProcessed(Expired(s.db.processed, Unix(at.processed - SEVEN_DAYS)))]
    + ([Tick(at.dead - at.processed), ExpireDead(Expired(FailedAts(s.db.dead), Unix(at.dead - FOURTEEN_DAYS)))]
    + ([Tick(at.digest - at.dead), ExpireDigest(Expired(CreatedAts(s.db.digest), Unix(at.digest - SEVEN_DAYS)))]
    + [Tick(at.dedupe - at.digest), ExpireDedupe(Expired(s.db.dedupe, Unix(at.dedupe - c.dedupeWindow * SECOND)))]))
  }

  /** A whole clean-up is a run of the machine, and no pending event is touched. */
  lemma CleanupIsARun(c: Config, s: State, at: Readings)
    requires at.InOrder(s.now)
    ensures Run(c, s, Cleanup(c, s, at))
    ensures After(c, s, Cleanup(c, s, at)) == s.(now := at.dedupe, db := Retained(s.db, at, c.dedupeWindow))
  {
    hide Unix, KeepSince, KeepLetters, KeepDigest, Expired, FailedAts, CreatedAts, Run, After;
    var a1 := [Tick(at.processed - s.now), ExpireProcessed(Expired(s.db.processed, Unix(at.processed - SEVEN_DAYS)))];
    ProcessedStep(c, s, at.processed);
    var s1 := After(c, s, a1);
    var a2 := [Tick(at.dead - at.processed), ExpireDead(Expired(FailedAts(s.db.dead), Unix(at.dead - FOURTEEN_DAYS)))];
    DeadStep(c, s1, at.dead);
    var s2 := After(c, s1, a2);
    var a3 := [Tick(at.digest - at.dead), ExpireDigest(Expired(CreatedAts(s.db.digest), Unix(at.digest - SEVEN_DAYS)))];
    DigestStep(c, s2, at.digest);
    var s3 := After(c, s2, a3);
    var a4 := [Tick(at.dedupe - at.digest), ExpireDedupe(Expired(s.db.dedupe, Unix(at.dedupe - c.dedupeWindow * SECOND)))];
    DedupeStep(c, s3, at.dedupe);
    RunAppend(c, s2, a3, a4);
    RunAppend(c, s1, a2, a3 + a4);
    RunAppend(c, s, a1, a2 + (a3 + a4));
  }
}
