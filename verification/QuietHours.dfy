/** Quiet hours: when a message that arrives at a given instant may be delivered. */
module QuietHours {
  import opened Clock

  /** Quiet hours from one minute of the day to another; Off when either setting is absent or malformed. */
  datatype Rule = Off | Hours(start: int, end: int)

  datatype TimeOfDay = Invalid | At(minutes: int)

  predicate IsDigit(c: char) {
    '0' <= c <= '9'
  }

  function DigitValue(c: char): (v: int)
    requires IsDigit(c)
    ensures 0 <= v <= 9
  {
    c as int - '0' as int
  }

  /** time.Parse with the layout 15:04: one or two hour digits, a colon, exactly two minute digits. */
  function Parse(s: string): (t: TimeOfDay)
    ensures t.At? ==> 0 <= t.minutes < 1440
  {
    var hourDigits := if |s| >= 2 && IsDigit(s[1]) then 2 else 1;
    if |s| != hourDigits + 3 || !IsDigit(s[0]) || s[hourDigits] != ':'
       || !IsDigit(s[hourDigits + 1]) || !IsDigit(s[hourDigits + 2]) then Invalid
    else
      var hour := if hourDigits == 2 then DigitValue(s[0]) * 10 + DigitValue(s[1]) else DigitValue(s[0]);
      var minute := DigitValue(s[hourDigits + 1]) * 10 + DigitValue(s[hourDigits + 2]);
      if hour < 24 && minute < 60 then At(hour * 60 + minute) else Invalid
  }

  function Digit(v: nat): (c: char)
    requires v < 10
    ensures IsDigit(c) && DigitValue(c) == v
  {
    ('0' as int + v) as char
  }

  function TwoDigits(n: nat): (s: string)
    requires n < 100
    ensures |s| == 2
  {
    [Digit(n / 10), Digit(n % 10)]
  }

  /** The spellings of a time of day: 7:05 or 07:05, and 17:05. */
  predicate Spells(s: string, minutes: nat)
    requires minutes < 1440
  {
    var hour, minute := minutes / 60, minutes % 60;
    s == TwoDigits(hour) + [':'] + TwoDigits(minute) || (hour < 10 && s == [Digit(hour)] + [':'] + TwoDigits(minute))
  }

  /** A digit is the only character with its value. */
  lemma DigitOfValue(c: char)
    requires IsDigit(c)
    ensures Digit(DigitValue(c)) == c
  {
  }

  lemma ParseSpelling(s: string, minutes: nat)
    requires minutes < 1440 && Spells(s, minutes)
    ensures Parse(s) == At(minutes)
  {
    var hour, minute := minutes / 60, minutes % 60;
    var k := |s| - 3;
    assert s[k + 1] == Digit(minute / 10) && s[k + 2] == Digit(minute % 10) && s[k] == ':';
    if k == 2 {
      assert s[0] == Digit(hour / 10) && s[1] == Digit(hour % 10);
    } else {
      assert s[0] == Digit(hour) && s[1] == ':';
    }
  }

  lemma SpellDigits(tens: char, units: char)
    requires IsDigit(tens) && IsDigit(units)
    ensures TwoDigits(DigitValue(tens) * 10 + DigitValue(units)) == [tens, units]
  {
    DigitOfValue(tens);
    DigitOfValue(units);
  }

  lemma SpellingParsed(s: string, minutes: nat)
    requires minutes < 1440 && Parse(s) == At(minutes)
    ensures Spells(s, minutes)
  {
    var k := |s| - 3;
    var hour := if k == 2 then DigitValue(s[0]) * 10 + DigitValue(s[1]) else DigitValue(s[0]);
    var minute := DigitValue(s[k + 1]) * 10 + DigitValue(s[k + 2]);
    assert minutes / 60 == hour && minutes % 60 == minute;
    SpellDigits(s[k + 1], s[k + 2]);
    if k == 2 {
      SpellDigits(s[0], s[1]);
      hide Digit, DigitValue, TwoDigits;
      assert s == [s[0], s[1]] + [':'] + [s[3], s[4]];
    } else {
      DigitOfValue(s[0]);
      hide Digit, DigitValue, TwoDigits;
      assert s == [s[0]] + [':'] + [s[2], s[3]];
    }
  }

  /** Quiet hours as configured; a setting that spells no time of day, the empty one included, switches them off. */
  function ReadRule(start: string, end: string): (rule: Rule)
    ensures WellFormed(rule)
    ensures rule.Off? <==> Parse(start).Invalid? || Parse(end).Invalid?
    ensures rule.Hours? ==> Parse(start) == At(rule.start) && Parse(end) == At(rule.end)
  {
    var s, e := Parse(start), Parse(end);
    if start == "" || end == "" || s.Invalid? || e.Invalid? then Off else Hours(s.minutes, e.minutes)
  }

  /** Settings are read as the hours they spell and as nothing else. */
  lemma ReadRuleIff(start: string, end: string, from: nat, to: nat)
    requires from < 1440 && to < 1440
    ensures ReadRule(start, end) == Hours(from, to) <==> Spells(start, from) && Spells(end, to)
  {
    if ReadRule(start, end) == Hours(from, to) {
      SpellingParsed(start, from);
      SpellingParsed(end, to);
    }
    if Spells(start, from) && Spells(end, to) {
      ParseSpelling(start, from);
      ParseSpelling(end, to);
    }
  }

  predicate WellFormed(rule: Rule) {
    rule.Hours? ==> 0 <= rule.start < 1440 && 0 <= rule.end < 1440
  }

  function DayStart(t: int): (d: int)
    ensures d <= t < d + DAY && d % DAY == 0
  {
    t / DAY * DAY
  }

  function MinuteOfDay(t: int): (m: int)
    ensures 0 <= m < 1440
    ensures DayStart(t) + m * MINUTE <= t < DayStart(t) + (m + 1) * MINUTE
  {
    (t - DayStart(t)) / MINUTE
  }

  /** EvaluateTimeRule: the instant of delivery and whether quiet hours delayed it. */
  function EvaluateTimeRule(start: string, end: string, now: int): (int, bool) {
    Evaluate(ReadRule(start, end), now)
  }

  function Evaluate(rule: Rule, now: int): (int, bool) {
    var current := MinuteOfDay(now);
    if rule.Off? || !Covers(rule, current) then (now, false)
    else if current < rule.end then (DayStart(now) + rule.end * MINUTE, true)
    else (DayStart(now) + DAY + rule.end * MINUTE, true)
  }

  predicate Covers(rule: Rule, minute: int)
    requires rule.Hours?
  {
    if rule.start < rule.end then rule.start <= minute < rule.end
    else minute >= rule.start || minute < rule.end
  }

  /** The instants at which the rule keeps messages back: counted in minutes from the start, and around the clock, less of
      the day has gone by than until the end; equal ends mean always. */
  predicate Quiet(rule: Rule, t: int) {
    && rule.Hours?
    && (rule.start == rule.end || (MinuteOfDay(t) - rule.start) % 1440 < (rule.end - rule.start) % 1440)
  }

  /** The comparisons of the code, with and without midnight in between, decide just that. */
  lemma CoversIff(rule: Rule, minute: int)
    requires rule.Hours? && WellFormed(rule) && 0 <= minute < 1440
    ensures Covers(rule, minute) <==> rule.start == rule.end || (minute - rule.start) % 1440 < (rule.end - rule.start) % 1440
  {
    Around(minute, rule.start);
    Around(rule.end, rule.start);
  }

  lemma Around(minute: int, start: int)
    requires 0 <= minute < 1440 && 0 <= start < 1440
    ensures (minute - start) % 1440 == if minute < start then minute - start + 1440 else minute - start
  {
  }

  /** Length of one quiet period; equal ends make it the whole day. */
  function QuietLength(rule: Rule): int
    requires rule.Hours?
  {
    (if rule.start == rule.end then 1440 else (rule.end - rule.start) % 1440) * MINUTE
  }

  /** An instant less than 24 hours after a midnight belongs to the day that starts there. */
  lemma WithinDay(t: int, days: int, u: int)
    requires DayStart(t) + days * DAY <= u < DayStart(t) + (days + 1) * DAY
    ensures DayStart(u) == DayStart(t) + days * DAY
  {
    assert u / DAY == t / DAY + days;
  }

  /** Every instant from now up to the computed one is quiet. */
  lemma QuietUntil(rule: Rule, now: int, t: int)
    requires WellFormed(rule) && now <= t < Evaluate(rule, now).0
    ensures Quiet(rule, t)
  {
    WithinDay(now, if t < DayStart(now) + DAY then 0 else 1, t);
  }

  /** A minute of a day that starts at midnight, read back. */
  lemma MinuteOfMidnight(day: int, minute: nat)
    requires day % DAY == 0 && minute < 1440
    ensures var t := day + minute * MINUTE; t % MINUTE == 0 && DayStart(t) == day && MinuteOfDay(t) == minute
  {
    var t := day + minute * MINUTE;
    assert t / DAY == day / DAY;
    assert t == (day / DAY * 1440 + minute) * MINUTE;
  }

  lemma MidnightIsWhole(t: int)
    ensures DayStart(t) % DAY == 0 && (DayStart(t) + DAY) % DAY == 0
  {
  }

  /** The delivery instant: unchanged outside quiet hours, otherwise the end of the quiet period that now lies in. */
  lemma EvaluateLands(rule: Rule, now: int)
    requires WellFormed(rule)
    ensures Evaluate(rule, now).1 == Quiet(rule, now)
    ensures !Quiet(rule, now) ==> Evaluate(rule, now).0 == now
    ensures Quiet(rule, now) ==>
              var r := Evaluate(rule, now).0;
              && now < r <= now + QuietLength(rule)
              && r % MINUTE == 0 && MinuteOfDay(r) == rule.end
  {
    hide DayStart, MinuteOfDay;
    if Quiet(rule, now) {
      MidnightIsWhole(now);
      MinuteOfMidnight(DayStart(now), rule.end);
      MinuteOfMidnight(DayStart(now) + DAY, rule.end);
    }
  }

  /** With different ends the rule returns the least instant, not before now, that lies outside quiet hours. */
  lemma LeastAllowedInstant(rule: Rule, now: int)
    requires WellFormed(rule) && (rule.Hours? ==> rule.start != rule.end)
    ensures var r := Evaluate(rule, now).0;
            && r >= now && !Quiet(rule, r)
            && (forall t | now <= t < r :: Quiet(rule, t))
            && Evaluate(rule, r) == (r, false)
  {
    EvaluateLands(rule, now);
    var r := Evaluate(rule, now).0;
    EvaluateLands(rule, r);
    forall t | now <= t < r ensures Quiet(rule, t) {
      QuietUntil(rule, now, t);
    }
  }

  /** Evaluating again never delays a message further, exactly when the ends differ or the rule is off: equal ends are
      quiet all day. */
  lemma SettlesIff(rule: Rule)
    requires WellFormed(rule)
    ensures (forall now :: var r := Evaluate(rule, now).0; Evaluate(rule, r) == (r, false))
       <==> (rule.Hours? ==> rule.start != rule.end)
  {
    if rule.Hours? ==> rule.start != rule.end {
      forall now ensures var r := Evaluate(rule, now).0; Evaluate(rule, r) == (r, false) {
        LeastAllowedInstant(rule, now);
      }
    } else {
      var r := Evaluate(rule, 0).0;
      EvaluateLands(rule, r);
      assert Quiet(rule, r);
    }
  }

  /** The second stored for a deferred message is exactly the instant quiet hours end, so rounding loses nothing. */
  lemma DeferredSecondIsExact(rule: Rule, now: int)
    requires WellFormed(rule) && Quiet(rule, now)
    ensures Unix(Evaluate(rule, now).0) * SECOND == Evaluate(rule, now).0
  {
    EvaluateLands(rule, now);
    WholeMinute(Evaluate(rule, now).0);
  }

  lemma WholeMinute(t: int)
    requires t % MINUTE == 0
    ensures Unix(t) * SECOND == t
  {
    UnixShift(0, t / MINUTE * 60);
  }

  /** Settings that spell different hours return the least instant, not before now, outside those hours; a message is
      delayed exactly when less of the day has gone by since their start than lies between start and end. */
  lemma SettingsDelayToTheEnd(start: string, end: string, from: nat, to: nat, now: int)
    requires from < 1440 && to < 1440 && from != to && Spells(start, from) && Spells(end, to)
    ensures var (r, delayed) := EvaluateTimeRule(start, end, now); var length := (to - from) % 1440;
            && (delayed <==> (MinuteOfDay(now) - from) % 1440 < length)
            && r >= now && (MinuteOfDay(r) - from) % 1440 >= length
            && (forall t | now <= t < r :: (MinuteOfDay(t) - from) % 1440 < length)
  {
    hide MinuteOfDay, Evaluate;
    ReadRuleIff(start, end, from, to);
    var rule := Hours(from, to);
    LeastAllowedInstant(rule, now);
    EvaluateLands(rule, now);
    assert forall t :: Quiet(rule, t) <==> (MinuteOfDay(t) - from) % 1440 < (to - from) % 1440;
  }

  /** Settings that spell the same time delay every message, to the next time the clock shows it. */
  lemma EqualSettingsAlwaysDelay(start: string, end: string, at: nat, now: int)
    requires at < 1440 && Spells(start, at) && Spells(end, at)
    ensures var (r, delayed) := EvaluateTimeRule(start, end, now);
            && delayed && now < r <= now + DAY && r % MINUTE == 0 && MinuteOfDay(r) == at
  {
    hide MinuteOfDay, Evaluate;
    ReadRuleIff(start, end, at, at);
    EvaluateLands(Hours(at, at), now);
  }

  /** Settings of which one spells no time of day delay nothing. */
  lemma OtherSettingsDelayNothing(start: string, end: string, now: int)
    requires (forall m: nat | m < 1440 :: !Spells(start, m)) || (forall m: nat | m < 1440 :: !Spells(end, m))
    ensures EvaluateTimeRule(start, end, now) == (now, false)
  {
    var rule := ReadRule(start, end);
    if rule.Hours? {
      SpellingParsed(start, rule.start);
      SpellingParsed(end, rule.end);
    }
  }
}
