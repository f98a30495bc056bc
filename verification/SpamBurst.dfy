/** The burst limit of the spam rule. */
module SpamBurst {
  import opened Clock
  import opened Sums

  /** burstCounts and burstLast; a key absent from a map reads as zero or as the zero instant. */
  datatype Bursts = Bursts(counts: map<string, int>, last: map<string, int>)

  /** One evaluation: seen is the clock when the gap is measured, stamp the clock when the message is recorded. */
  datatype Message = Message(key: string, seen: int, stamp: int)

  /** time.Since of the zero instant is the longest duration an int64 holds. */
  function Gap(b: Bursts, m: Message): int {
    if m.key in b.last then m.seen - b.last[m.key] else TWO_63 - 1
  }

  function CountNow(b: Bursts, m: Message, window: int): int {
    if Gap(b, m) > window || m.key !in b.counts then 0 else b.counts[m.key]
  }

  predicate Passes(b: Bursts, m: Message, limit: int, window: int) {
    CountNow(b, m, window) < limit
  }

  function AfterMessage(b: Bursts, m: Message, limit: int, window: int): Bursts {
    var count := CountNow(b, m, window);
    if count < limit then Bursts(b.counts[m.key := count + 1], b.last[m.key := m.stamp])
    else if Gap(b, m) > window then b.(counts := b.counts[m.key := 0])
    else b
  }

  class SpamRule {
    var burstCounts: map<string, int>
    var burstLast: map<string, int>

    constructor ()
      ensures State() == Bursts(map[], map[])
    {
      burstCounts, burstLast := map[], map[];
    }

    function State(): Bursts
      reads this
    {
      Bursts(burstCounts, burstLast)
    }

    /** limitSetting and windowSetting are BurstLimit and BurstWindow; the window in nanoseconds is an int64 product. */
    method EvaluateSpamRule(limitSetting: int, windowSetting: int, tgId: string, dcChannelId: string, seen: int, stamp: int)
      returns (passes: bool)
      modifies this
      ensures limitSetting <= 0 || windowSetting <= 0 ==> passes && State() == old(State())
      ensures limitSetting > 0 && windowSetting > 0 ==>
                var m := Message(tgId + ":" + dcChannelId, seen, stamp);
                var window := Wrap64(windowSetting * SECOND);
                && passes == Passes(old(State()), m, limitSetting, window)
                && State() == AfterMessage(old(State()), m, limitSetting, window)
    {
      if limitSetting <= 0 || windowSetting <= 0 {
        return true;
      }
      var key := tgId + ":" + dcChannelId;
      var since := if key in burstLast then seen - burstLast[key] else TWO_63 - 1;
      if since > Wrap64(windowSetting * SECOND) {
        burstCounts := burstCounts[key := 0];
      }
      var count := if key in burstCounts then burstCounts[key] else 0;
      if count >= limitSetting {
        return false;
      }
      burstCounts := burstCounts[key := count + 1];
      burstLast := burstLast[key := stamp];
      return true;
    }
  }

  /** The mutex serialises evaluations and the clock never runs backwards. */
  predicate Monotone(run: seq<Message>) {
    && (forall i | 0 <= i < |run| :: run[i].seen <= run[i].stamp)
    && (forall i, j | 0 <= i < j < |run| :: run[i].stamp <= run[j].seen)
  }

  // ---- which messages are denied ----

  /** The accepted messages of key, in order. */
  function Accepted(b: Bursts, run: seq<Message>, limit: int, window: int, key: string): seq<Message>
    decreases |run|
  {
    if run == [] then []
    else
      (if run[0].key == key && Passes(b, run[0], limit, window) then [run[0]] else [])
      + Accepted(AfterMessage(b, run[0], limit, window), run[1..], limit, window, key)
  }

  function AfterRun(b: Bursts, run: seq<Message>, limit: int, window: int): Bursts
    decreases |run|
  {
    if run == [] then b else AfterRun(AfterMessage(b, run[0], limit, window), run[1..], limit, window)
  }

  /** The accepted messages of the last burst: a message seen more than the window after the one before begins a burst. */
  function LastBurst(accepted: seq<Message>, window: int): (burst: seq<Message>)
    ensures |burst| <= |accepted|
  {
    if accepted == [] then []
    else
      var before, m := accepted[..|accepted| - 1], accepted[|accepted| - 1];
      if before == [] || m.seen - before[|before| - 1].stamp > window then [m] else LastBurst(before, window) + [m]
  }

  /** The maps hold the length of the last burst of a key and the stamp of its last message. */
  predicate Tells(b: Bursts, key: string, accepted: seq<Message>, window: int) {
    if accepted == [] then key !in b.last && key !in b.counts
    else
      && key in b.last && b.last[key] == accepted[|accepted| - 1].stamp
      && key in b.counts && b.counts[key] == |LastBurst(accepted, window)|
  }

  lemma LastBurstStep(accepted: seq<Message>, m: Message, window: int)
    ensures LastBurst(accepted + [m], window)
         == if accepted == [] || m.seen - accepted[|accepted| - 1].stamp > window then [m] else LastBurst(accepted, window) + [m]
  {
    assert (accepted + [m])[..|accepted|] == accepted;
  }

  /** Message i is seen within the window of the one before. */
  predicate Follows(accepted: seq<Message>, i: nat, window: int)
    requires 0 < i < |accepted|
  {
    accepted[i].seen - accepted[i - 1].stamp <= window
  }

  lemma EndGrows<T>(xs: seq<T>, first: nat)
    requires first < |xs|
    ensures xs[..|xs| - 1][first..] + [xs[|xs| - 1]] == xs[first..]
  {
  }

  /** The last burst is the longest end of the list in which each message follows the one before. */
  lemma {:induction false} LastBurstIsLongest(accepted: seq<Message>, window: int) returns (first: nat)
    requires accepted != []
    ensures first < |accepted| && LastBurst(accepted, window) == accepted[first..]
    ensures forall i | first < i < |accepted| :: Follows(accepted, i, window)
    ensures first > 0 ==> !Follows(accepted, first, window)
  {
    var n := |accepted| - 1;
    var before := accepted[..n];
    if n == 0 || !Follows(accepted, n, window) {
      first := n;
    } else {
      first := LastBurstIsLongest(before, window);
      EndGrows(accepted, first);
      forall i | first <= i < n && 0 < i ensures Follows(accepted, i, window) == Follows(before, i, window) {
      }
      hide LastBurst, Follows;
    }
  }

  lemma MessageTells(b: Bursts, m: Message, limit: int, window: int, key: string, accepted: seq<Message>)
    requires limit > 0 && Tells(b, key, accepted, window)
    ensures var more := accepted + if m.key == key && Passes(b, m, limit, window) then [m] else [];
            Tells(AfterMessage(b, m, limit, window), key, more, window)
  {
    LastBurstStep(accepted, m, window);
    hide LastBurst;
    assert accepted + [] == accepted;
  }

  lemma {:induction false} RunTells(b: Bursts, run: seq<Message>, limit: int, window: int, key: string, accepted: seq<Message>)
    requires limit > 0 && Tells(b, key, accepted, window)
    ensures Tells(AfterRun(b, run, limit, window), key, accepted + Accepted(b, run, limit, window, key), window)
    decreases |run|
  {
    hide Tells, Passes, AfterMessage;
    if run == [] {
      assert accepted + [] == accepted;
    } else {
      var now := if run[0].key == key && Passes(b, run[0], limit, window) then [run[0]] else [];
      var next := AfterMessage(b, run[0], limit, window);
      MessageTells(b, run[0], limit, window, key, accepted);
      RunTells(next, run[1..], limit, window, key, accepted + now);
      assert accepted + (now + Accepted(next, run[1..], limit, window, key)) == accepted + now + Accepted(next, run[1..], limit, window, key);
    }
  }

  /** After any run a message is denied exactly when the last burst of its key has reached the limit and its last message is
      no longer ago than the window. */
  lemma DeniedIff(run: seq<Message>, m: Message, limit: int, window: int)
    requires limit > 0
    ensures var accepted := Accepted(NO_BURSTS, run, limit, window, m.key);
            (!Passes(AfterRun(NO_BURSTS, run, limit, window), m, limit, window)
             <==> |LastBurst(accepted, window)| >= limit && m.seen - accepted[|accepted| - 1].stamp <= window)
  {
    var accepted := Accepted(NO_BURSTS, run, limit, window, m.key);
    RunTells(NO_BURSTS, run, limit, window, m.key, []);
    assert [] + accepted == accepted;
    hide Accepted, AfterRun, LastBurst;
  }

  // ---- how many messages an interval can hold ----

  /** How many messages of key were accepted with a stamp in the closed interval from lo to lo + span. */
  function AcceptedWithin(b: Bursts, run: seq<Message>, limit: int, window: int, key: string, lo: int, span: int): nat
    decreases |run|
  {
    if run == [] then 0
    else
      var m := run[0];
      var here := if m.key == key && Passes(b, m, limit, window) && lo <= m.stamp <= lo + span then 1 else 0;
      here + AcceptedWithin(AfterMessage(b, m, limit, window), run[1..], limit, window, key, lo, span)
  }

  /** All accepted messages counted so far belong to the burst that is still open, if it can still grow inside the interval. */
  predicate Accounts(b: Bursts, limit: int, window: int, key: string, lo: int, counted: int) {
    if key !in b.last then counted == 0
    else
      && counted <= limit
      && (b.last[key] < lo ==> counted == 0)
      && (b.last[key] <= lo + window ==> key in b.counts && counted <= b.counts[key])
  }

  lemma {:induction false} BoundFrom(b: Bursts, run: seq<Message>, limit: int, window: int, key: string, lo: int, counted: int)
    requires limit > 0 && window >= 0 && Monotone(run)
    requires Accounts(b, limit, window, key, lo, counted)
    requires key in b.counts ==> 0 <= b.counts[key]
    requires key in b.last ==> forall i | 0 <= i < |run| :: b.last[key] <= run[i].seen
    ensures counted + AcceptedWithin(b, run, limit, window, key, lo, window) <= limit
    decreases |run|
  {
    if run != [] {
      var m := run[0];
      var next := AfterMessage(b, m, limit, window);
      var here := if m.key == key && Passes(b, m, limit, window) && lo <= m.stamp <= lo + window then 1 else 0;
      assert Accounts(next, limit, window, key, lo, counted + here);
      BoundFrom(next, run[1..], limit, window, key, lo, counted + here);
    } else {
      assert AcceptedWithin(b, run, limit, window, key, lo, window) == 0;
    }
  }

  const NO_BURSTS := Bursts(map[], map[])

  /** With a window that does not overflow, no closed interval of its length holds more than limit accepted messages. */
  lemma BurstBound(run: seq<Message>, limit: int, windowSetting: int, key: string, lo: int)
    requires limit > 0 && 0 < windowSetting && windowSetting * SECOND < TWO_63 && Monotone(run)
    ensures AcceptedWithin(NO_BURSTS, run, limit, Wrap64(windowSetting * SECOND), key, lo, windowSetting * SECOND) <= limit
  {
    BoundFrom(NO_BURSTS, run, limit, windowSetting * SECOND, key, lo, 0);
  }

  /** The state after more accepted messages at the instant of the last one; a negative window starts a burst with each. */
  function Filled(b: Bursts, m: Message, times: nat, window: int): Bursts
    requires m.key in b.counts
  {
    if times == 0 then b
    else Bursts(b.counts[m.key := if window < 0 then 1 else b.counts[m.key] + times], b.last[m.key := m.stamp])
  }

  lemma OneMore(b: Bursts, m: Message, limit: int, window: int)
    requires limit > 0 && m.key in b.last && b.last[m.key] == m.seen == m.stamp
    requires m.key in b.counts && (window >= 0 ==> b.counts[m.key] < limit)
    ensures Passes(b, m, limit, window) && AfterMessage(b, m, limit, window) == Filled(b, m, 1, window)
  {
  }

  lemma FilledTwice(b: Bursts, m: Message, times: nat, window: int)
    requires m.key in b.counts
    ensures var next := Filled(b, m, 1, window);
            && m.key in next.counts && (window >= 0 ==> next.counts[m.key] == b.counts[m.key] + 1)
            && m.key in next.last && next.last[m.key] == m.stamp
            && Filled(next, m, times, window) == Filled(b, m, times + 1, window)
  {
  }

  /** Messages at the instant of the last accepted one pass until the count is full. */
  lemma {:induction false} Fill(b: Bursts, m: Message, times: nat, rest: seq<Message>, limit: int, window: int, lo: int, span: int)
    requires limit > 0 && m.key in b.last && b.last[m.key] == m.seen == m.stamp && lo <= m.stamp <= lo + span
    requires m.key in b.counts && (window >= 0 ==> b.counts[m.key] + times <= limit)
    ensures AcceptedWithin(b, Repeat(m, times) + rest, limit, window, m.key, lo, span)
         == times + AcceptedWithin(Filled(b, m, times, window), rest, limit, window, m.key, lo, span)
    decreases times
  {
    var run := Repeat(m, times) + rest;
    if times == 0 {
      assert run == rest;
    } else {
      hide Passes, AfterMessage, Filled;
      assert run[0] == m && run[1..] == Repeat(m, times - 1) + rest;
      OneMore(b, m, limit, window);
      FilledTwice(b, m, times - 1, window);
      Fill(AfterMessage(b, m, limit, window), m, times - 1, rest, limit, window, lo, span);
    }
  }

  /** A full burst at instant zero and one more message. */
  function BurstAnd(key: string, limit: int, late: int): seq<Message>
    requires limit > 0
  {
    [Message(key, 0, 0)] + (Repeat(Message(key, 0, 0), limit - 1) + [Message(key, late, late)])
  }

  lemma BurstAndIsMonotone(key: string, limit: int, late: int)
    requires limit > 0 && late >= 0
    ensures Monotone(BurstAnd(key, limit, late))
  {
    var run := BurstAnd(key, limit, late);
    assert forall i | 0 <= i < |run| :: run[i].seen == run[i].stamp == if i < limit then 0 else late;
  }

  /** The extra message is accepted exactly when it comes more than the rule's window after the burst. */
  lemma BurstAndCounts(key: string, limit: int, late: int, window: int, span: int)
    requires limit > 0 && 0 <= late <= span
    ensures AcceptedWithin(NO_BURSTS, BurstAnd(key, limit, late), limit, window, key, 0, span)
         == limit + if late > window then 1 else 0
  {
    var m, last := Message(key, 0, 0), Message(key, late, late);
    var run, first := BurstAnd(key, limit, late), AfterMessage(NO_BURSTS, m, limit, window);
    var rest := Repeat(m, limit - 1) + [last];
    assert run[0] == m && run[1..] == rest;
    Fill(first, m, limit - 1, [last], limit, window, 0, span);
    var full := Filled(first, m, limit - 1, window);
    assert full.last[key] == 0;
    assert [last][1..] == [];
    assert AcceptedWithin(full, [last], limit, window, key, 0, span) == if Passes(full, last, limit, window) then 1 else 0;
  }

  /** The promise of the settings: at most limit accepted messages in any closed interval of the configured length. */
  ghost predicate KeepsPromise(limit: int, windowSetting: int) {
    forall run: seq<Message>, key: string, lo: int | Monotone(run) ::
      AcceptedWithin(NO_BURSTS, run, limit, Wrap64(windowSetting * SECOND), key, lo, windowSetting * SECOND) <= limit
  }

  /** The rule keeps the promise of its settings, over all runs and keys, exactly when the window fits in an int64. */
  lemma BurstPromiseIff(limit: int, windowSetting: int)
    requires limit > 0 && windowSetting > 0
    ensures KeepsPromise(limit, windowSetting) <==> windowSetting * SECOND < TWO_63
  {
    var span, window := windowSetting * SECOND, Wrap64(windowSetting * SECOND);
    if span < TWO_63 {
      forall run: seq<Message>, key: string, lo: int | Monotone(run)
        ensures AcceptedWithin(NO_BURSTS, run, limit, window, key, lo, span) <= limit
      {
        BurstBound(run, limit, windowSetting, key, lo);
      }
    } else {
      var late := if window < 0 then 0 else window + 1;
      BurstAndIsMonotone("k", limit, late);
      BurstAndCounts("k", limit, late, window, span);
    }
  }

  /** The bound is reached by any limit-sized burst at one instant, and the next message at that instant is denied. */
  lemma BurstBoundIsTight(key: string, limit: int, window: int)
    requires limit > 0 && window >= 0
    ensures Monotone(BurstAnd(key, limit, 0))
    ensures AcceptedWithin(NO_BURSTS, BurstAnd(key, limit, 0), limit, window, key, 0, window) == limit
  {
    BurstAndIsMonotone(key, limit, 0);
    BurstAndCounts(key, limit, 0, window, window);
  }

  /** A denied message changes nothing that a later one can see, so a sender is heard again one quiet window after the
      last accepted message. */
  lemma DenialIsInvisible(b: Bursts, m: Message, limit: int, window: int)
    requires limit > 0 && !Passes(b, m, limit, window)
    ensures AfterMessage(b, m, limit, window) == b
    ensures m.key in b.last ==> m.seen <= b.last[m.key] + window
  {
  }

  /** How many messages of key carry a stamp in the interval, accepted or not. */
  function StampedWithin(run: seq<Message>, key: string, lo: int, span: int): nat
    decreases |run|
  {
    if run == [] then 0
    else (if run[0].key == key && lo <= run[0].stamp <= lo + span then 1 else 0) + StampedWithin(run[1..], key, lo, span)
  }

  lemma {:induction false} NegativeWindowAcceptsAll(b: Bursts, run: seq<Message>, limit: int, window: int, key: string, lo: int, span: int)
    requires limit > 0 && window < 0 && Monotone(run)
    requires forall k, i | k in b.last && 0 <= i < |run| :: b.last[k] <= run[i].seen
    ensures AcceptedWithin(b, run, limit, window, key, lo, span) == StampedWithin(run, key, lo, span)
    decreases |run|
  {
    if run != [] {
      NegativeWindowAcceptsAll(AfterMessage(b, run[0], limit, window), run[1..], limit, window, key, lo, span);
    }
  }

  /** No message of any run is ever denied. */
  ghost predicate SwitchedOff(limit: int, windowSetting: int) {
    forall run: seq<Message>, key: string, lo: int, span: int | Monotone(run) ::
      AcceptedWithin(NO_BURSTS, run, limit, Wrap64(windowSetting * SECOND), key, lo, span) == StampedWithin(run, key, lo, span)
  }

  lemma {:induction false} StampedAtOnce(m: Message, times: nat, rest: seq<Message>, span: int)
    requires 0 <= m.stamp <= span
    ensures StampedWithin(Repeat(m, times) + rest, m.key, 0, span) == times + StampedWithin(rest, m.key, 0, span)
    decreases times
  {
    var run := Repeat(m, times) + rest;
    if times == 0 {
      assert run == rest;
    } else {
      assert run[1..] == Repeat(m, times - 1) + rest;
      StampedAtOnce(m, times - 1, rest, span);
    }
  }

  /** The rule denies nobody in any run exactly when the window's nanoseconds wrap to a negative int64. */
  lemma SwitchedOffIff(limit: int, windowSetting: int)
    requires limit > 0 && windowSetting > 0
    ensures SwitchedOff(limit, windowSetting) <==> Wrap64(windowSetting * SECOND) < 0
  {
    var window := Wrap64(windowSetting * SECOND);
    if window < 0 {
      forall run: seq<Message>, key: string, lo: int, span: int | Monotone(run)
        ensures AcceptedWithin(NO_BURSTS, run, limit, window, key, lo, span) == StampedWithin(run, key, lo, span)
      {
        NegativeWindowAcceptsAll(NO_BURSTS, run, limit, window, key, lo, span);
      }
    } else {
      var m, run := Message("k", 0, 0), BurstAnd("k", limit, 0);
      BurstBoundIsTight("k", limit, window);
      StampedAtOnce(m, limit - 1, [m], window);
      assert run[0] == m && run[1..] == Repeat(m, limit - 1) + [m];
      assert [m][1..] == [] && StampedWithin([m], "k", 0, window) == 1;
      assert StampedWithin(run, "k", 0, window) == limit + 1;
    }
  }

  /** In particular every setting from 2^63 up to 2^64 nanoseconds switches the rule off. */
  lemma OverflowDisablesTheRule(limit: int, windowSetting: int)
    requires limit > 0 && TWO_63 <= windowSetting * SECOND < TWO_64
    ensures SwitchedOff(limit, windowSetting) && !KeepsPromise(limit, windowSetting)
  {
    SwitchedOffIff(limit, windowSetting);
    BurstPromiseIff(limit, windowSetting);
  }
}
