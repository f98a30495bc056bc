/** One pass of the digest scheduler: the due groups in order, and what becomes of each. */
module DigestPass {
  import opened Clock
  import opened Machine
  import opened Models
  import opened QueueStore
  import opened RateLimit
  import opened Sums
  import opened Tables

  // ---- the query for due groups ----

  /** Groups with a row due at the cutoff. */
  function GroupsDue(db: Db, cutoff: int): set<Route> {
    set id | id in db.digest && db.digest[id].deliverAfter <= cutoff :: db.digest[id].route
  }

  /** When the due rows of a group became due. */
  function DueTimes(db: Db, group: Route, cutoff: int): set<int> {
    set id | id in DueDigest(db, group, cutoff) :: db.digest[id].deliverAfter
  }

  /** The earliest of the first times is no later than the earliest of the second. */
  predicate NotLater(first: set<int>, second: set<int>) {
    forall y | y in second :: exists x :: x in first && x <= y
  }

  lemma NotLaterIsTotal(first: set<int>, second: set<int>)
    requires first != {} && second != {}
    ensures NotLater(first, second) || NotLater(second, first)
  {
    var x := LeastExists(first);
    var y := LeastExists(second);
  }

  lemma NotLaterIsTransitive(first: set<int>, second: set<int>, third: set<int>)
    requires NotLater(first, second) && NotLater(second, third)
    ensures NotLater(first, third)
  {
    forall z | z in third ensures exists x :: x in first && x <= z {
      var y :| y in second && y <= z;
      var x :| x in first && x <= y;
    }
  }

  predicate Before(db: Db, cutoff: int, first: Route, second: Route) {
    NotLater(DueTimes(db, first, cutoff), DueTimes(db, second, cutoff))
  }

  lemma DueGroupsHaveTimes(db: Db, cutoff: int, group: Route)
    requires group in GroupsDue(db, cutoff)
    ensures DueTimes(db, group, cutoff) != {} && DueDigest(db, group, cutoff) != {}
  {
    var id :| id in db.digest && db.digest[id].deliverAfter <= cutoff && db.digest[id].route == group;
    assert id in DueDigest(db, group, cutoff);
    assert db.digest[id].deliverAfter in DueTimes(db, group, cutoff);
  }

  /** A group is listed as due exactly when some row of its route is. */
  lemma GroupsDueIff(db: Db, cutoff: int, group: Route)
    ensures group in GroupsDue(db, cutoff) <==> exists id :: id in db.digest && db.digest[id].route == group && db.digest[id].deliverAfter <= cutoff
  {
  }

  lemma IsDueTime(db: Db, group: Route, cutoff: int, id: string)
    ensures id in db.digest && db.digest[id].route == group && db.digest[id].deliverAfter <= cutoff ==>
              db.digest[id].deliverAfter in DueTimes(db, group, cutoff)
  {
    assert id in db.digest && db.digest[id].route == group && db.digest[id].deliverAfter <= cutoff ==> id in DueDigest(db, group, cutoff);
  }

  /** One group comes before another exactly when each due row of the latter has one of the former due no later. */
  lemma BeforeIff(db: Db, cutoff: int, first: Route, second: Route)
    ensures Before(db, cutoff, first, second)
       <==> forall id | id in db.digest && db.digest[id].route == second && db.digest[id].deliverAfter <= cutoff ::
              exists k :: k in db.digest && db.digest[k].route == first && db.digest[k].deliverAfter <= db.digest[id].deliverAfter
  {
    if Before(db, cutoff, first, second) {
      forall id | id in db.digest && db.digest[id].route == second && db.digest[id].deliverAfter <= cutoff
        ensures exists k :: k in db.digest && db.digest[k].route == first && db.digest[k].deliverAfter <= db.digest[id].deliverAfter
      {
        IsDueTime(db, second, cutoff, id);
        var x :| x in DueTimes(db, first, cutoff) && x <= db.digest[id].deliverAfter;
      }
    } else {
      var y :| y in DueTimes(db, second, cutoff) && forall x :: x in DueTimes(db, first, cutoff) ==> x > y;
      var id :| id in DueDigest(db, second, cutoff) && db.digest[id].deliverAfter == y;
      forall k | k in db.digest && db.digest[k].route == first ensures db.digest[k].deliverAfter > y {
        IsDueTime(db, first, cutoff, k);
      }
    }
  }

  lemma {:induction false} FirstGroupExists(db: Db, cutoff: int, groups: set<Route>)
    requires groups <= GroupsDue(db, cutoff) && groups != {}
    ensures exists first | first in groups :: forall other | other in groups :: Before(db, cutoff, first, other)
    decreases groups
  {
    hide NotLater, DueTimes, GroupsDue;
    var group :| group in groups;
    DueGroupsHaveTimes(db, cutoff, group);
    NotLaterIsTotal(DueTimes(db, group, cutoff), DueTimes(db, group, cutoff));
    var rest := groups - {group};
    if rest != {} {
      FirstGroupExists(db, cutoff, rest);
      var first :| first in rest && forall other | other in rest :: Before(db, cutoff, first, other);
      DueGroupsHaveTimes(db, cutoff, first);
      NotLaterIsTotal(DueTimes(db, group, cutoff), DueTimes(db, first, cutoff));
      var best := if Before(db, cutoff, group, first) then group else first;
      forall other | other in groups ensures Before(db, cutoff, best, other) {
        if best == group && other in rest {
          NotLaterIsTransitive(DueTimes(db, group, cutoff), DueTimes(db, first, cutoff), DueTimes(db, other, cutoff));
        }
      }
    } else {
      assert groups == {group};
    }
  }

  function GroupLimit(limit: int): (n: nat)
    ensures 0 < n <= 100
    ensures 0 < limit <= 100 ==> n == limit
  {
    if limit <= 0 then 20 else if limit > 100 then 100 else limit
  }

  predicate EachOnce(groups: seq<Route>) {
    forall i, j | 0 <= i < j < |groups| :: groups[i] != groups[j]
  }

  /** Different groups, each with a due row. */
  predicate AreDue(db: Db, cutoff: int, groups: seq<Route>) {
    EachOnce(groups) && forall group | group in groups :: group in GroupsDue(db, cutoff)
  }

  /** The groups listed so far and those still to come: each due group in one of them, the earlier ones first. */
  predicate Listing(db: Db, cutoff: int, groups: seq<Route>, rest: set<Route>) {
    && EachOnce(groups)
    && (forall group | group in GroupsDue(db, cutoff) :: group in groups || group in rest)
    && rest <= GroupsDue(db, cutoff)
    && (forall group | group in groups :: group in GroupsDue(db, cutoff) && group !in rest)
    && |groups| + |rest| == |GroupsDue(db, cutoff)|
    && (forall i, j | 0 <= i < j < |groups| :: Before(db, cutoff, groups[i], groups[j]))
    && (forall i, other | 0 <= i < |groups| && other in rest :: Before(db, cutoff, groups[i], other))
  }

  lemma ListingStarts(db: Db, cutoff: int)
    ensures Listing(db, cutoff, [], GroupsDue(db, cutoff))
  {
  }

  lemma ListingGrows(db: Db, cutoff: int, groups: seq<Route>, rest: set<Route>, first: Route)
    requires Listing(db, cutoff, groups, rest) && first in rest
    requires forall other | other in rest :: Before(db, cutoff, first, other)
    ensures Listing(db, cutoff, groups + [first], rest - {first})
  {
    hide Before, GroupsDue;
    var more, fewer := groups + [first], rest - {first};
    assert forall group :: group in more <==> group in groups || group == first;
    assert first !in groups;
    assert |fewer| == |rest| - 1;
    assert forall i | 0 <= i < |groups| :: groups[i] in groups;
  }

  /** ListDigestGroupsDue: up to the limit, each due group once, those that became due first before the others. */
  method ListDigestGroupsDue(store: Store, now: int, limit: int) returns (groups: seq<Route>)
    ensures var db, cutoff := store.Content(), Unix(now);
            && AreDue(db, cutoff, groups)
            && |groups| == (if |GroupsDue(db, cutoff)| <= GroupLimit(limit) then |GroupsDue(db, cutoff)| else GroupLimit(limit))
            && (forall i, j | 0 <= i < j < |groups| :: Before(db, cutoff, groups[i], groups[j]))
            && (forall i, other | 0 <= i < |groups| && other in GroupsDue(db, cutoff) && other !in groups :: Before(db, cutoff, groups[i], other))
  {
    hide Before, GroupsDue, Unix, Store.Content;
    var db, cutoff := store.Content(), Unix(now);
    groups := [];
    var rest := GroupsDue(db, cutoff);
    ListingStarts(db, cutoff);
    while rest != {} && |groups| < GroupLimit(limit)
      invariant Listing(db, cutoff, groups, rest) && |groups| <= GroupLimit(limit)
      decreases rest
    {
      FirstOfListing(db, cutoff, groups, rest);
      var first :| first in rest && forall other | other in rest :: Before(db, cutoff, first, other);
      ListingGrows(db, cutoff, groups, rest, first);
      hide Listing;
      groups := groups + [first];
      rest := rest - {first};
    }
  }

  lemma FirstOfListing(db: Db, cutoff: int, groups: seq<Route>, rest: set<Route>)
    requires Listing(db, cutoff, groups, rest) && rest != {}
    ensures exists first | first in rest :: forall other | other in rest :: Before(db, cutoff, first, other)
  {
    hide Before, GroupsDue;
    FirstGroupExists(db, cutoff, rest);
  }

  // ---- one group ----

  /** What becomes of a listed group: no pairing, held back (nothing due any more, rate limit, no consumer, failed send), or sent. */
  datatype Fate = Unpaired | HeldBack | Sent

  /** What the scheduler meets outside the digest table: whether the pairing exists, the clock when the limiter is asked,
      the consumer and its answer. */
  datatype World = World(paired: bool, at: int, hasConsumer: bool, delivered: bool)

  /** Groups nothing is known of have no pairing. */
  function WorldOf(worlds: map<Route, World>, group: Route): World {
    if group in worlds then worlds[group] else World(false, 0, false, false)
  }

  datatype Limit = Limit(max: int, window: int)

  /** One listed group: its due rows are deleted when the group is unpaired or its digest was sent, and kept otherwise. */
  method ProcessGroup(store: Store, limiter: RateLimiter, group: Route, world: World, limit: Limit, cutoff: int)
    returns (fate: Fate, reported: nat, dropped: nat)
    modifies store`digest, limiter
    ensures var before, due := old(store.Content()), DueDigest(old(store.Content()), group, cutoff);
            var call := Call(DestKey(group), world.at);
            var within := limit.max <= 0 || Allows(old(limiter.buckets), call, limit.max, limit.window);
            var sends := world.paired && due != {} && within && world.hasConsumer && world.delivered;
            && fate == (if !world.paired then Unpaired else if sends then Sent else HeldBack)
            && reported == (if sends then |due| else 0) && dropped == (if world.paired then 0 else |due|)
            && store.Content() == before.(digest := before.digest - if sends || !world.paired then due else {})
            && limiter.buckets == if world.paired && due != {} then Charged(old(limiter.buckets), call, limit.max, limit.window)
                                  else old(limiter.buckets)
  {
    hide DueDigest, Allows, AfterCall;
    reported, dropped := 0, 0;
    var total := |DueDigest(store.Content(), group, cutoff)|;
    assert store.digest - {} == store.digest;
    if !world.paired {
      store.DeleteDigestEventsForGroup(group, cutoff);
      return Unpaired, 0, total;
    }
    if total == 0 {
      return HeldBack, 0, 0;
    }
    var allowed := limiter.CheckDestinationRateLimit(DestKey(group), limit.max, limit.window, world.at);
    if !allowed {
      return HeldBack, 0, 0;
    }
    if !world.hasConsumer {
      return HeldBack, 0, 0;
    }
    if !world.delivered {
      return HeldBack, 0, 0;
    }
    store.DeleteDigestEventsForGroup(group, cutoff);
    return Sent, total, 0;
  }

  // ---- as steps of the machine ----

  function GroupSteps(group: Route, fate: Fate): seq<Action> {
    match fate
    case Unpaired => [DropGroup(group)]
    case HeldBack => [ListGroup(group), SkipGroup]
    case Sent => [ListGroup(group), ReportGroup] + [DeleteGroup]
  }

  predicate RunsTo(c: Config, s: State, steps: seq<Action>, t: State) {
    Run(c, s, steps) && After(c, s, steps) == t
  }

  lemma UnpairedRun(c: Config, s: State, group: Route)
    requires s.sched.Pass?
    ensures RunsTo(c, s, [DropGroup(group)], s.(db := s.db.(digest := s.db.digest - DueDigest(s.db, group, s.sched.cutoff))))
  {
    hide DueDigest, Run, After;
    NoSteps(c, Next(c, s, DropGroup(group)));
    OneStep(c, s, DropGroup(group), []);
    assert [DropGroup(group)] + [] == [DropGroup(group)];
  }

  lemma HeldBackRun(c: Config, s: State, group: Route)
    requires s.sched.Pass? && DueDigest(s.db, group, s.sched.cutoff) != {}
    ensures RunsTo(c, s, [ListGroup(group), SkipGroup], s)
  {
    hide DueDigest, Run, After;
    NoSteps(c, s);
    TwoSteps(c, s, ListGroup(group), SkipGroup, []);
    assert [ListGroup(group), SkipGroup] + [] == [ListGroup(group), SkipGroup];
  }

  lemma SentRun(c: Config, s: State, group: Route)
    requires s.sched.Pass? && DueDigest(s.db, group, s.sched.cutoff) != {}
    ensures var due := DueDigest(s.db, group, s.sched.cutoff);
            RunsTo(c, s, [ListGroup(group), ReportGroup] + [DeleteGroup],
                   s.(db := s.db.(digest := s.db.digest - due), hist := s.hist.(reported := s.hist.reported + |due|)))
  {
    hide DueDigest, Run, After;
    var due := DueDigest(s.db, group, s.sched.cutoff);
    var reported := s.(sched := Reported(s.sched.cutoff, group, due), hist := s.hist.(reported := s.hist.reported + |due|));
    NoSteps(c, Next(c, reported, DeleteGroup));
    OneStep(c, reported, DeleteGroup, []);
    assert [DeleteGroup] + [] == [DeleteGroup];
    TwoSteps(c, s, ListGroup(group), ReportGroup, [DeleteGroup]);
  }

  /** Whatever becomes of a group with due rows is a run of the machine's scheduler, with the same rows gone and those of a
      digest sent counted as reported. */
  lemma GroupIsARun(c: Config, s: State, group: Route, fate: Fate)
    requires s.sched.Pass? && DueDigest(s.db, group, s.sched.cutoff) != {}
    ensures var due := DueDigest(s.db, group, s.sched.cutoff);
            RunsTo(c, s, GroupSteps(group, fate),
                   s.(db := s.db.(digest := s.db.digest - if fate.HeldBack? then {} else due),
                      hist := s.hist.(reported := s.hist.reported + if fate.Sent? then |due| else 0)))
  {
    hide DueDigest, RunsTo;
    assert s.db.digest - {} == s.db.digest;
    match fate
    case Unpaired => UnpairedRun(c, s, group);
    case HeldBack => HeldBackRun(c, s, group);
    case Sent => SentRun(c, s, group);
  }

  // ---- the pass ----

  lemma AllListed(db: Db, cutoff: int, groups: seq<Route>)
    requires AreDue(db, cutoff, groups)
    ensures |groups| == |GroupsDue(db, cutoff)| ==> forall group | group in GroupsDue(db, cutoff) :: group in groups
  {
    hide GroupsDue;
    var listed := set group | group in groups;
    SizeOfEachOnce(groups);
    if |groups| == |GroupsDue(db, cutoff)| {
      assert |GroupsDue(db, cutoff) - listed| == |GroupsDue(db, cutoff)| - |listed|;
    }
  }

  lemma {:induction false} SizeOfEachOnce(groups: seq<Route>)
    requires EachOnce(groups)
    ensures |set group | group in groups| == |groups|
    decreases |groups|
  {
    if groups != [] {
      SizeOfEachOnce(groups[1..]);
      assert groups == [groups[0]] + groups[1..];
      assert (set group | group in groups) == {groups[0]} + set group | group in groups[1..];
    }
  }

  /** The limiter's counters after it was asked for the paired ones of the groups, in order. */
  function Asked(buckets: Buckets, groups: seq<Route>, worlds: map<Route, World>, limit: Limit): Buckets
    decreases |groups|
  {
    if groups == [] then buckets
    else
      var world := WorldOf(worlds, groups[0]);
      var call := Call(DestKey(groups[0]), world.at);
      Asked(if world.paired then Charged(buckets, call, limit.max, limit.window) else buckets, groups[1..], worlds, limit)
  }

  lemma {:induction false} AskedStep(buckets: Buckets, groups: seq<Route>, n: nat, worlds: map<Route, World>, limit: Limit)
    requires n < |groups|
    ensures var world, before := WorldOf(worlds, groups[n]), Asked(buckets, groups[..n], worlds, limit);
            Asked(buckets, groups[..n + 1], worlds, limit)
            == if world.paired then Charged(before, Call(DestKey(groups[n]), world.at), limit.max, limit.window) else before
    decreases n
  {
    hide WorldOf, Charged;
    if n == 0 {
      assert groups[..1][1..] == [];
    } else {
      var world := WorldOf(worlds, groups[0]);
      var next := if world.paired then Charged(buckets, Call(DestKey(groups[0]), world.at), limit.max, limit.window) else buckets;
      assert groups[..n + 1][1..] == groups[1..][..n] && groups[..n][1..] == groups[1..][..n - 1];
      AskedStep(next, groups[1..], n - 1, worlds, limit);
    }
  }

  /** The group's digest went out: paired, within the limit after the groups before it, with a consumer that took it. */
  predicate GoesOut(start: Buckets, groups: seq<Route>, n: nat, worlds: map<Route, World>, limit: Limit)
    requires n < |groups|
  {
    var world, before := WorldOf(worlds, groups[n]), Asked(start, groups[..n], worlds, limit);
    && world.paired
    && (limit.max <= 0 || Allows(before, Call(DestKey(groups[n]), world.at), limit.max, limit.window))
    && world.hasConsumer && world.delivered
  }

  /** The rows due of the groups judged so far that met this fate. */
  function RowsOf(db: Db, groups: seq<Route>, fates: seq<Fate>, cutoff: int, fate: Fate): set<string>
    requires |fates| <= |groups|
  {
    set id | id in db.digest && db.digest[id].deliverAfter <= cutoff
             && exists i | 0 <= i < |fates| :: groups[i] == db.digest[id].route && fates[i] == fate
  }

  lemma RowsOfStep(db: Db, groups: seq<Route>, fates: seq<Fate>, fate: Fate, cutoff: int, kind: Fate)
    requires |fates| < |groups| && EachOnce(groups)
    ensures RowsOf(db, groups, fates + [fate], cutoff, kind)
         == RowsOf(db, groups, fates, cutoff, kind) + if fate == kind then DueDigest(db, groups[|fates|], cutoff) else {}
    ensures RowsOf(db, groups, fates, cutoff, kind) !! DueDigest(db, groups[|fates|], cutoff)
  {
    var more := fates + [fate];
    assert forall i | 0 <= i < |fates| :: more[i] == fates[i];
    assert more[|fates|] == fate;
  }

  /** Where a pass stands: the fates so far are what the groups met, and exactly the rows of groups sent and of groups
      unpaired are gone, the former reported and the latter dropped. */
  ghost predicate Standing(begin: Db, db: Db, start: Buckets, buckets: Buckets, groups: seq<Route>, worlds: map<Route, World>, limit: Limit,
                           cutoff: int, fates: seq<Fate>, reported: nat, dropped: nat)
  {
    && |fates| <= |groups|
    && (forall i | 0 <= i < |fates| :: fates[i].Sent? <==> GoesOut(start, groups, i, worlds, limit))
    && (forall i | 0 <= i < |fates| :: fates[i].Unpaired? <==> !WorldOf(worlds, groups[i]).paired)
    && buckets == Asked(start, groups[..|fates|], worlds, limit)
    && db.digest == begin.digest - RowsOf(begin, groups, fates, cutoff, Sent) - RowsOf(begin, groups, fates, cutoff, Unpaired)
    && reported == |RowsOf(begin, groups, fates, cutoff, Sent)| && dropped == |RowsOf(begin, groups, fates, cutoff, Unpaired)|
  }

  lemma StandingStarts(db: Db, buckets: Buckets, groups: seq<Route>, worlds: map<Route, World>, limit: Limit, cutoff: int)
    ensures Standing(db, db, buckets, buckets, groups, worlds, limit, cutoff, [], 0, 0)
  {
    assert groups[..0] == [];
    assert RowsOf(db, groups, [], cutoff, Sent) == {} == RowsOf(db, groups, [], cutoff, Unpaired);
  }

  /** The rows of a group are untouched until its turn. */
  lemma StillDue(begin: Db, db: Db, groups: seq<Route>, cutoff: int, fates: seq<Fate>)
    requires AreDue(begin, cutoff, groups) && |fates| < |groups|
    requires db.digest == begin.digest - RowsOf(begin, groups, fates, cutoff, Sent) - RowsOf(begin, groups, fates, cutoff, Unpaired)
    ensures DueDigest(db, groups[|fates|], cutoff) == DueDigest(begin, groups[|fates|], cutoff) != {}
  {
    DueGroupsHaveTimes(begin, cutoff, groups[|fates|]);
    RowsOfStep(begin, groups, fates, Sent, cutoff, Sent);
    RowsOfStep(begin, groups, fates, Sent, cutoff, Unpaired);
    hide RowsOf, GroupsDue;
  }

  lemma TakeSent<K, V>(m: map<K, V>, sent: set<K>, lost: set<K>, due: set<K>)
    ensures m - sent - lost - due == m - (sent + due) - lost
  {
  }

  lemma TakeLost<K, V>(m: map<K, V>, sent: set<K>, lost: set<K>, due: set<K>)
    ensures m - sent - lost - due == m - sent - (lost + due)
  {
  }

  lemma TakeNothing<K, V>(m: map<K, V>, sent: set<K>)
    ensures m - {} == m && sent + {} == sent
  {
  }

  /** A group's rows go to those sent, to those lost, or stay. */
  lemma TakeMore(digest: map<string, DigestRow>, sent: set<string>, lost: set<string>, due: set<string>, fate: Fate)
    requires sent !! due && lost !! due
    ensures var sentNow, lostNow := if fate.Sent? then due else {}, if fate.Unpaired? then due else {};
            && digest - sent - lost - (if fate.HeldBack? then {} else due) == digest - (sent + sentNow) - (lost + lostNow)
            && |sent + sentNow| == |sent| + |sentNow| && |lost + lostNow| == |lost| + |lostNow|
  {
    TakeNothing(digest - sent - lost, sent);
    TakeNothing(digest, lost);
    match fate
    case HeldBack =>
    case Sent => TakeSent(digest, sent, lost, due);
    case Unpaired => TakeLost(digest, sent, lost, due);
  }

  lemma StandingStep(begin: Db, db: Db, after: Db, start: Buckets, groups: seq<Route>, worlds: map<Route, World>, limit: Limit,
                     cutoff: int, fates: seq<Fate>, fate: Fate, reported: nat, dropped: nat)
    requires EachOnce(groups) && |fates| < |groups|
    requires db.digest == begin.digest - RowsOf(begin, groups, fates, cutoff, Sent) - RowsOf(begin, groups, fates, cutoff, Unpaired)
    requires reported == |RowsOf(begin, groups, fates, cutoff, Sent)| && dropped == |RowsOf(begin, groups, fates, cutoff, Unpaired)|
    requires after.digest == db.digest - if fate.HeldBack? then {} else DueDigest(begin, groups[|fates|], cutoff)
    ensures var due, more := DueDigest(begin, groups[|fates|], cutoff), fates + [fate];
            && after.digest == begin.digest - RowsOf(begin, groups, more, cutoff, Sent) - RowsOf(begin, groups, more, cutoff, Unpaired)
            && |RowsOf(begin, groups, more, cutoff, Sent)| == reported + (if fate.Sent? then |due| else 0)
            && |RowsOf(begin, groups, more, cutoff, Unpaired)| == dropped + (if fate.Unpaired? then |due| else 0)
  {
    var sent, lost := RowsOf(begin, groups, fates, cutoff, Sent), RowsOf(begin, groups, fates, cutoff, Unpaired);
    var due := DueDigest(begin, groups[|fates|], cutoff);
    RowsOfStep(begin, groups, fates, fate, cutoff, Sent);
    RowsOfStep(begin, groups, fates, fate, cutoff, Unpaired);
    hide RowsOf, DueDigest;
    TakeMore(begin.digest, sent, lost, due, fate);
  }

  lemma FatesStep(start: Buckets, groups: seq<Route>, worlds: map<Route, World>, limit: Limit, fates: seq<Fate>, fate: Fate)
    requires |fates| < |groups|
    requires forall i | 0 <= i < |fates| :: fates[i].Sent? <==> GoesOut(start, groups, i, worlds, limit)
    requires forall i | 0 <= i < |fates| :: fates[i].Unpaired? <==> !WorldOf(worlds, groups[i]).paired
    requires fate.Sent? <==> GoesOut(start, groups, |fates|, worlds, limit)
    requires fate.Unpaired? <==> !WorldOf(worlds, groups[|fates|]).paired
    ensures var more := fates + [fate];
            && (forall i | 0 <= i < |more| :: more[i].Sent? <==> GoesOut(start, groups, i, worlds, limit))
            && (forall i | 0 <= i < |more| :: more[i].Unpaired? <==> !WorldOf(worlds, groups[i]).paired)
  {
    hide GoesOut, WorldOf;
    var more := fates + [fate];
    assert forall i | 0 <= i < |fates| :: more[i] == fates[i];
  }

  /** One round of the loop over the listed groups. */
  method ProcessNext(store: Store, limiter: RateLimiter, groups: seq<Route>, worlds: map<Route, World>, limit: Limit, cutoff: int,
                     n: nat, ghost begin: Db, ghost start: Buckets, ghost fates: seq<Fate>, ghost reported: nat, ghost dropped: nat)
    returns (fate: Fate, sent: nat, lost: nat)
    requires n == |fates| < |groups| && AreDue(begin, cutoff, groups)
    requires Standing(begin, store.Content(), start, limiter.buckets, groups, worlds, limit, cutoff, fates, reported, dropped)
    modifies store`digest, limiter
    ensures Standing(begin, store.Content(), start, limiter.buckets, groups, worlds, limit, cutoff, fates + [fate], reported + sent, dropped + lost)
  {
    hide DueDigest, WorldOf, Store.Content, RowsOf, Asked, Allows, AfterCall, GroupsDue;
    ghost var before := store.Content();
    StillDue(begin, before, groups, cutoff, fates);
    fate, sent, lost := ProcessGroup(store, limiter, groups[n], WorldOf(worlds, groups[n]), limit, cutoff);
    AskedStep(start, groups, n, worlds, limit);
    StandingStep(begin, before, store.Content(), start, groups, worlds, limit, cutoff, fates, fate, reported, dropped);
    FatesStep(start, groups, worlds, limit, fates, fate);
  }

  /** The loop over the listed groups. */
  method ProcessListed(store: Store, limiter: RateLimiter, groups: seq<Route>, worlds: map<Route, World>, limit: Limit, cutoff: int)
    returns (fates: seq<Fate>, reported: nat, dropped: nat)
    requires AreDue(store.Content(), cutoff, groups)
    modifies store`digest, limiter
    ensures |fates| == |groups|
    ensures Standing(old(store.Content()), store.Content(), old(limiter.buckets), limiter.buckets, groups, worlds, limit, cutoff,
                     fates, reported, dropped)
  {
    fates, reported, dropped := [], 0, 0;
    ghost var begin, start := store.Content(), limiter.buckets;
    StandingStarts(begin, start, groups, worlds, limit, cutoff);
    hide Standing, AreDue, Store.Content;
    for n := 0 to |groups|
      invariant |fates| == n
      invariant Standing(begin, store.Content(), start, limiter.buckets, groups, worlds, limit, cutoff, fates, reported, dropped)
    {
      var fate, sent, lost := ProcessNext(store, limiter, groups, worlds, limit, cutoff, n, begin, start, fates, reported, dropped);
      fates, reported, dropped := fates + [fate], reported + sent, dropped + lost;
    }
  }

  const BATCH_LIMIT := 25

  /** processDigests: lists the due groups and goes through them. A group's rows leave reported exactly when its digest went
      out, dropped exactly when it has no pairing, and stay otherwise. */
  method ProcessDigests(store: Store, limiter: RateLimiter, worlds: map<Route, World>, limit: Limit, now: int)
    returns (groups: seq<Route>, fates: seq<Fate>, reported: nat, dropped: nat)
    modifies store`digest, limiter
    ensures AreDue(old(store.Content()), Unix(now), groups)
    ensures |GroupsDue(old(store.Content()), Unix(now))| <= BATCH_LIMIT ==>
              forall group | group in GroupsDue(old(store.Content()), Unix(now)) :: group in groups
    ensures |fates| == |groups|
    ensures forall i | 0 <= i < |groups| ::
              && (fates[i].Sent? <==> GoesOut(old(limiter.buckets), groups, i, worlds, limit))
              && (fates[i].Unpaired? <==> !WorldOf(worlds, groups[i]).paired)
    ensures limiter.buckets == Asked(old(limiter.buckets), groups, worlds, limit)
    ensures var db := old(store.Content());
            var sent, lost := RowsOf(db, groups, fates, Unix(now), Sent), RowsOf(db, groups, fates, Unix(now), Unpaired);
            store.digest == old(store.digest) - sent - lost && reported == |sent| && dropped == |lost|
  {
    hide RowsOf, DueDigest, Unix, AreDue, GroupsDue, Before, GoesOut, WorldOf, Asked;
    groups := ListDigestGroupsDue(store, now, BATCH_LIMIT);
    AllListed(store.Content(), Unix(now), groups);
    fates, reported, dropped := ProcessListed(store, limiter, groups, worlds, limit, Unix(now));
    assert groups[..|groups|] == groups;
  }
}
