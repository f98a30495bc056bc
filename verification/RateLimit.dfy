/** The per-key counters of the source and destination rate limits. */
module RateLimit {
  import opened Sums

  datatype Bucket = Bucket(count: int, windowAt: int)

  type Buckets = map<string, Bucket>

  /** One call: the key it is for and the instant the clock showed. */
  datatype Call = Call(key: string, now: int)

  predicate Opens(buckets: Buckets, call: Call, window: int) {
    call.key !in buckets || call.now - buckets[call.key].windowAt > window
  }

  predicate Allows(buckets: Buckets, call: Call, max: int, window: int) {
    Opens(buckets, call, window) || buckets[call.key].count < max
  }

  function AfterCall(buckets: Buckets, call: Call, max: int, window: int): Buckets {
    if Opens(buckets, call, window) then buckets[call.key := Bucket(1, call.now)]
    else if buckets[call.key].count < max then
      buckets[call.key := buckets[call.key].(count := buckets[call.key].count + 1)]
    else buckets
  }

  /** A configured maximum of zero or less switches the limit off. */
  predicate PassesLimit(buckets: Buckets, call: Call, max: int, window: int) {
    max <= 0 || Allows(buckets, call, max, window)
  }

  function Charged(buckets: Buckets, call: Call, max: int, window: int): Buckets {
    if max <= 0 then buckets else AfterCall(buckets, call, max, window)
  }

  class RateLimiter {
    var buckets: Buckets

    constructor ()
      ensures buckets == map[]
    {
      buckets := map[];
    }

    method CheckLimit(key: string, max: int, window: int, now: int) returns (allowed: bool)
      modifies this
      ensures allowed == Allows(old(buckets), Call(key, now), max, window)
      ensures buckets == AfterCall(old(buckets), Call(key, now), max, window)
      ensures !allowed ==> buckets == old(buckets)
      ensures buckets - {key} == old(buckets) - {key}
    {
      var known := key in buckets;
      if !known || now - buckets[key].windowAt > window {
        buckets := buckets[key := Bucket(1, now)];
        return true;
      }
      var bucket := buckets[key];
      if bucket.count >= max {
        return false;
      }
      buckets := buckets[key := Bucket(bucket.count + 1, bucket.windowAt)];
      return true;
    }

    method CheckDestinationRateLimit(key: string, max: int, window: int, now: int) returns (allowed: bool)
      modifies this
      ensures allowed == PassesLimit(old(buckets), Call(key, now), max, window)
      ensures buckets == Charged(old(buckets), Call(key, now), max, window)
      ensures max <= 0 ==> allowed && buckets == old(buckets)
    {
      if max <= 0 {
        return true;
      }
      allowed := CheckLimit(key, max, window, now);
    }
  }

  /** A denied call changes no counter, and no call changes the counter of another key. */
  lemma DenialIsInvisible(buckets: Buckets, call: Call, max: int, window: int)
    ensures !Allows(buckets, call, max, window) ==> AfterCall(buckets, call, max, window) == buckets
    ensures AfterCall(buckets, call, max, window) - {call.key} == buckets - {call.key}
  {
  }

  /** The clock never runs backwards during a run of calls. */
  predicate Monotone(calls: seq<Call>) {
    forall i, j | 0 <= i < j < |calls| :: calls[i].now <= calls[j].now
  }

  // ---- which calls are denied ----

  /** The instants at which calls for key are allowed, in order. */
  function AllowedTimes(buckets: Buckets, calls: seq<Call>, max: int, window: int, key: string): seq<int>
    decreases |calls|
  {
    if calls == [] then []
    else
      (if calls[0].key == key && Allows(buckets, calls[0], max, window) then [calls[0].now] else [])
      + AllowedTimes(AfterCall(buckets, calls[0], max, window), calls[1..], max, window, key)
  }

  /** The counters a run of calls leaves. */
  function AfterCalls(buckets: Buckets, calls: seq<Call>, max: int, window: int): Buckets
    decreases |calls|
  {
    if calls == [] then buckets else AfterCalls(AfterCall(buckets, calls[0], max, window), calls[1..], max, window)
  }

  /** The allowed calls of the last window: a call more than the window after the one that opened it opens the next. */
  function LastWindow(times: seq<int>, window: int): (last: seq<int>)
    ensures |last| <= |times| && (times != [] ==> last != [])
  {
    if times == [] then []
    else
      var before, t := LastWindow(times[..|times| - 1], window), times[|times| - 1];
      if before == [] || t - before[0] > window then [t] else before + [t]
  }

  /** The counter of a key is the number of calls allowed in its last window, and the instant that window opened. */
  predicate Tells(buckets: Buckets, key: string, times: seq<int>, window: int) {
    var last := LastWindow(times, window);
    if last == [] then key !in buckets else key in buckets && buckets[key] == Bucket(|last|, last[0])
  }

  lemma LastWindowStep(times: seq<int>, t: int, window: int)
    ensures var last := LastWindow(times, window);
            LastWindow(times + [t], window) == if last == [] || t - last[0] > window then [t] else last + [t]
  {
    assert (times + [t])[..|times|] == times;
  }

  /** The last window is the end of the list, all of it within the window of the call that opened it. */
  lemma {:induction false} LastWindowIsTheEnd(times: seq<int>, window: int)
    ensures var last := LastWindow(times, window);
            && last == times[|times| - |last|..]
            && (window >= 0 ==> forall i | 0 <= i < |last| :: last[i] - last[0] <= window)
  {
    if times != [] {
      var before := times[..|times| - 1];
      LastWindowIsTheEnd(before, window);
      assert times == before + [times[|times| - 1]];
      LastWindowStep(before, times[|times| - 1], window);
    }
  }

  lemma CallTells(buckets: Buckets, call: Call, max: int, window: int, key: string, times: seq<int>)
    requires Tells(buckets, key, times, window)
    ensures var more := times + if call.key == key && Allows(buckets, call, max, window) then [call.now] else [];
            Tells(AfterCall(buckets, call, max, window), key, more, window)
  {
    LastWindowStep(times, call.now, window);
    hide LastWindow;
    assert times + [] == times;
  }

  lemma {:induction false} RunTells(buckets: Buckets, calls: seq<Call>, max: int, window: int, key: string, times: seq<int>)
    requires Tells(buckets, key, times, window)
    ensures Tells(AfterCalls(buckets, calls, max, window), key, times + AllowedTimes(buckets, calls, max, window, key), window)
    decreases |calls|
  {
    hide Tells, Allows, AfterCall;
    if calls == [] {
      assert times + [] == times;
    } else {
      var now := if calls[0].key == key && Allows(buckets, calls[0], max, window) then [calls[0].now] else [];
      var next := AfterCall(buckets, calls[0], max, window);
      CallTells(buckets, calls[0], max, window, key, times);
      RunTells(next, calls[1..], max, window, key, times + now);
      assert times + (now + AllowedTimes(next, calls[1..], max, window, key))
          == times + now + AllowedTimes(next, calls[1..], max, window, key);
    }
  }

  /** After any run a call is denied exactly when the maximum has been allowed for its key in the last window and that window
      opened no longer ago than its length: denied calls in between, and other keys, make no difference. */
  lemma DeniedIff(calls: seq<Call>, call: Call, max: int, window: int)
    requires max > 0
    ensures var last := LastWindow(AllowedTimes(map[], calls, max, window, call.key), window);
            (!Allows(AfterCalls(map[], calls, max, window), call, max, window) <==> |last| >= max && call.now - last[0] <= window)
  {
    var times := AllowedTimes(map[], calls, max, window, call.key);
    RunTells(map[], calls, max, window, call.key, []);
    assert [] + times == times;
    hide AllowedTimes, AfterCalls, LastWindow;
  }

  /** Instants in order, none of them before the given one. */
  predicate InOrder(times: seq<int>, from: int) {
    && (forall i, j | 0 <= i < j < |times| :: times[i] <= times[j])
    && (forall i | 0 <= i < |times| :: from <= times[i])
  }

  lemma {:induction false} AllowedInOrder(buckets: Buckets, calls: seq<Call>, max: int, window: int, key: string, from: int)
    requires Monotone(calls) && forall i | 0 <= i < |calls| :: from <= calls[i].now
    ensures InOrder(AllowedTimes(buckets, calls, max, window, key), from)
    decreases |calls|
  {
    hide Allows, AfterCall;
    if calls != [] {
      AllowedInOrder(AfterCall(buckets, calls[0], max, window), calls[1..], max, window, key, calls[0].now);
    }
  }

  /** In particular a call that comes more than the window after the last allowed call of its key is allowed, however many
      were denied since. */
  lemma AllowedAgain(calls: seq<Call>, call: Call, max: int, window: int)
    requires max > 0 && Monotone(calls)
    requires var times := AllowedTimes(map[], calls, max, window, call.key);
             times != [] ==> call.now - times[|times| - 1] > window
    ensures Allows(AfterCalls(map[], calls, max, window), call, max, window)
  {
    var times := AllowedTimes(map[], calls, max, window, call.key);
    DeniedIff(calls, call, max, window);
    if calls != [] {
      AllowedInOrder(map[], calls, max, window, call.key, calls[0].now);
    }
    hide Allows, AfterCalls, AllowedTimes, Monotone;
    LastWindowIsTheEnd(times, window);
  }

  // ---- how many calls an interval can see ----

  /** How many calls for key were allowed at an instant in the closed interval from lo to lo + window. */
  function AllowedWithin(buckets: Buckets, calls: seq<Call>, max: int, window: int, key: string, lo: int): nat
    decreases |calls|
  {
    if calls == [] then 0
    else
      var call := calls[0];
      var here := if call.key == key && Allows(buckets, call, max, window) && lo <= call.now <= lo + window then 1 else 0;
      here + AllowedWithin(AfterCall(buckets, call, max, window), calls[1..], max, window, key, lo)
  }

  /** What the counter of key says about the calls already counted in the interval. */
  predicate Accounts(buckets: Buckets, max: int, window: int, key: string, lo: int, counted: int) {
    if key !in buckets then counted == 0
    else
      var b := buckets[key];
      && 1 <= b.count <= max
      && counted <= 2 * max - 1
      && (b.windowAt < lo ==> counted <= b.count - 1)
      && (lo <= b.windowAt <= lo + window ==> counted <= max - 1 + b.count)
  }

  lemma {:induction false} BoundFrom(buckets: Buckets, calls: seq<Call>, max: int, window: int, key: string, lo: int, counted: int)
    requires max >= 1 && window >= 0 && Monotone(calls)
    requires Accounts(buckets, max, window, key, lo, counted)
    requires counted > 0 ==> forall i | 0 <= i < |calls| :: lo <= calls[i].now
    requires key in buckets ==> forall i | 0 <= i < |calls| :: buckets[key].windowAt <= calls[i].now
    ensures counted + AllowedWithin(buckets, calls, max, window, key, lo) <= 2 * max - 1
    decreases |calls|
  {
    if calls != [] {
      var call := calls[0];
      var next := AfterCall(buckets, call, max, window);
      var here := if call.key == key && Allows(buckets, call, max, window) && lo <= call.now <= lo + window then 1 else 0;
      assert Accounts(next, max, window, key, lo, counted + here);
      BoundFrom(next, calls[1..], max, window, key, lo, counted + here);
    }
  }

  /** Over any run and for every key, no closed interval of the window's length sees more than 2 * max - 1 allowed calls. */
  lemma FixedWindowBound(calls: seq<Call>, max: int, window: int, key: string, lo: int)
    requires max >= 1 && window >= 0 && Monotone(calls)
    ensures AllowedWithin(map[], calls, max, window, key, lo) <= 2 * max - 1
  {
    BoundFrom(map[], calls, max, window, key, lo, 0);
  }

  function Filled(buckets: Buckets, key: string, times: nat): Buckets
    requires key in buckets
  {
    buckets[key := buckets[key].(count := buckets[key].count + times)]
  }

  /** Calls at one instant inside an open window are allowed until the counter is full. */
  lemma {:induction false} Fill(buckets: Buckets, call: Call, times: nat, rest: seq<Call>, max: int, window: int, lo: int)
    requires call.key in buckets && call.now - buckets[call.key].windowAt <= window
    requires buckets[call.key].count + times <= max
    requires lo <= call.now <= lo + window
    ensures AllowedWithin(buckets, Repeat(call, times) + rest, max, window, call.key, lo)
         == times + AllowedWithin(Filled(buckets, call.key, times), rest, max, window, call.key, lo)
    decreases times
  {
    var calls := Repeat(call, times) + rest;
    if times == 0 {
      assert calls == rest;
      assert Filled(buckets, call.key, 0) == buckets;
    } else {
      assert calls[1..] == Repeat(call, times - 1) + rest;
      var next := AfterCall(buckets, call, max, window);
      Fill(next, call, times - 1, rest, max, window, lo);
      assert Filled(next, call.key, times - 1) == Filled(buckets, call.key, times);
    }
  }

  /** max calls at one instant, the first of which opens a window. */
  function Full(key: string, max: int, now: int): seq<Call>
    requires max >= 1
  {
    [Call(key, now)] + (Repeat(Call(key, now), max - 1) + [])
  }

  /** One call, the rest of that window's calls at its very end, then a full window just after it. */
  function BoundaryBurst(key: string, max: int, window: int): seq<Call>
    requires max >= 1
  {
    [Call(key, 0)] + (Repeat(Call(key, window), max - 1) + Full(key, max, window + 1))
  }

  lemma FullCounts(buckets: Buckets, key: string, max: int, window: int, now: int, lo: int)
    requires max >= 1 && window >= 0 && lo <= now <= lo + window
    requires Opens(buckets, Call(key, now), window)
    ensures AllowedWithin(buckets, Full(key, max, now), max, window, key, lo) == max
  {
    var call := Call(key, now);
    var rest := Repeat(call, max - 1) + [];
    assert Full(key, max, now)[1..] == rest;
    Fill(AfterCall(buckets, call, max, window), call, max - 1, [], max, window, lo);
  }

  lemma BoundaryBurstIsMonotone(key: string, max: int, window: int)
    requires max >= 1 && window >= 1
    ensures Monotone(BoundaryBurst(key, max, window))
  {
    var full := Full(key, max, window + 1);
    assert forall i | 0 <= i < |full| :: full[i].now == window + 1;
    hide Full;
    var late := Repeat(Call(key, window), max - 1);
    var calls := BoundaryBurst(key, max, window);
    assert calls == [Call(key, 0)] + (late + full);
    assert forall i | 0 <= i < |calls| :: calls[i].now == if i == 0 then 0 else if i < max then window else window + 1;
  }

  /** The bound is reached: for every maximum and window some run fits 2 * max - 1 allowed calls in one interval. */
  lemma FixedWindowBoundIsTight(key: string, max: int, window: int)
    requires max >= 1 && window >= 1
    ensures Monotone(BoundaryBurst(key, max, window))
    ensures AllowedWithin(map[], BoundaryBurst(key, max, window), max, window, key, window) == 2 * max - 1
  {
    BoundaryBurstIsMonotone(key, max, window);
    hide Monotone;
    var burst := BoundaryBurst(key, max, window);
    var middle := Repeat(Call(key, window), max - 1) + Full(key, max, window + 1);
    assert burst[0] == Call(key, 0) && burst[1..] == middle;
    var first := map[key := Bucket(1, 0)];
    Fill(first, Call(key, window), max - 1, Full(key, max, window + 1), max, window, window);
    FullCounts(Filled(first, key, max - 1), key, max, window, window + 1, window);
  }

  /** The limiter behaves like a sliding window of max calls exactly when max is one. */
  lemma SlidingOnlyForOne(max: int, window: int)
    requires max >= 1 && window >= 1
    ensures (forall calls: seq<Call>, key: string, lo: int | Monotone(calls) ::
              AllowedWithin(map[], calls, max, window, key, lo) <= max)
       <==> max == 1
  {
    if max == 1 {
      forall calls: seq<Call>, key: string, lo: int | Monotone(calls)
        ensures AllowedWithin(map[], calls, max, window, key, lo) <= max
      {
        FixedWindowBound(calls, max, window, key, lo);
      }
    } else {
      FixedWindowBoundIsTight("k", max, window);
    }
  }
}
