/** When replacing one placeholder after the other is one substitution: the exact conditions on templates and values. */
module CaptionExactness {
  import opened CaptionCounts
  import opened Captions
  import opened Text

  // ---- the exact condition on templates ----

  predicate GoodNames(names: seq<string>) {
    && (forall i | 0 <= i < |names| :: BraceFree(names[i]))
    && (forall i, j | 0 <= i < j < |names| :: names[i] != names[j])
  }

  /** Values for the names: one for a chosen name, nothing for the others. */
  function Only(names: seq<string>, i: nat, value: string): (passes: seq<Pass>)
    ensures |passes| == |names|
    ensures forall k | 0 <= k < |names| :: passes[k] == Pass(names[k], if k == i then value else "")
    ensures Names(passes) == names
  {
    seq(|names|, k requires 0 <= k < |names| => Pass(names[k], if k == i then value else ""))
  }

  /** One after the other equals all at once, for all values without an opening brace. */
  ghost predicate AlwaysSimultaneous(tpl: string, names: seq<string>) {
    forall passes: seq<Pass> | Names(passes) == names && Braceless(passes) :: RunPasses(tpl, passes) == Substitute(tpl, passes)
  }

  /** For all values without an opening brace the passes are one substitution exactly when the template is not ambiguous. */
  lemma TemplateIff(tpl: string, names: seq<string>)
    requires GoodNames(names)
    ensures AlwaysSimultaneous(tpl, names) <==> !Ambiguous(tpl, names)
  {
    if Ambiguous(tpl, names) {
      var i, j :| 0 <= i < j < |names| && exists m | 0 <= m <= |names[j]| :: Occurs(Opening(names[j], m, names[i]), tpl);
      var m :| 0 <= m <= |names[j]| && Occurs(Opening(names[j], m, names[i]), tpl);
      var passes := Only(names, i, Rest(names[j], m));
      hide Occurs, Opening;
      assert Braceless(passes) && WellNamed(passes) && DistinctNames(passes);
      AmbiguityCounts(tpl, passes, i, j, m);
    } else {
      forall passes: seq<Pass> | Names(passes) == names && Braceless(passes) ensures RunPasses(tpl, passes) == Substitute(tpl, passes) {
        BracelessIsSimultaneous(tpl, passes);
      }
    }
  }

  lemma BracelessIsSimultaneous(tpl: string, passes: seq<Pass>)
    requires GoodNames(Names(passes)) && Braceless(passes) && !Ambiguous(tpl, Names(passes))
    ensures RunPasses(tpl, passes) == Substitute(tpl, passes)
  {
    hide Ambiguous, SafeFor;
    assert forall i | 0 <= i < |passes| :: Names(passes)[i] == passes[i].name;
    forall i, j | 0 <= i < j < |passes| ensures SafeFor(passes[i].value, passes[j].name) {
      BracelessIsSafe(passes[i].value, passes[j].name);
    }
    PassesAreSimultaneous(tpl, passes);
  }

  // ---- the exact condition on values ----

  lemma {:induction false} OccursOpens(w: string, s: string)
    requires Occurs(w, s)
    ensures Opens(w) <= Opens(s)
    decreases |s|
  {
    if w <= s {
      assert s == w + s[|w|..];
      OpensAppend(w, s[|w|..]);
    } else {
      OccursOpens(w, s[1..]);
    }
  }

  lemma PlaceholderOpens(name: string)
    requires BraceFree(name)
    ensures Opens(Placeholder(name)) == 1
  {
    OpensAppend(['{'], name + ['}']);
    OneOpen('{');
    NoOpens(name + ['}']);
  }

  lemma OpeningOpens(name: string, m: nat, hole: string)
    requires m <= |name| && BraceFree(name) && BraceFree(hole)
    ensures Opens(Opening(name, m, hole)) == 2
  {
    OpensAppend(['{'], name[..m] + Placeholder(hole));
    OneOpen('{');
    OpensBehind(name[..m], Placeholder(hole));
    PlaceholderOpens(hole);
  }

  /** A template with one opening brace is not ambiguous. */
  lemma OneBraceIsUnambiguous(tpl: string, names: seq<string>)
    requires GoodNames(names) && Opens(tpl) <= 1
    ensures !Ambiguous(tpl, names)
  {
    forall i, j, m | 0 <= i < j < |names| && 0 <= m <= |names[j]| ensures !Occurs(Opening(names[j], m, names[i]), tpl) {
      OpeningOpens(names[j], m, names[i]);
      if Occurs(Opening(names[j], m, names[i]), tpl) { OccursOpens(Opening(names[j], m, names[i]), tpl); }
    }
  }

  lemma TailOfPlaceholder(name: string, n: nat)
    requires BraceFree(name) && 0 < n <= |Placeholder(name)|
    ensures '{' !in Placeholder(name)[n..]
  {
    assert Placeholder(name)[n..] == (name + ['}'])[n - 1..];
    assert '{' !in name + ['}'];
  }

  lemma OccursAtEnd(value: string, k: nat, tail: string, ph: string)
    requires k <= |value| && ph <= value[k..] + tail
    ensures Occurs(ph, value + tail)
  {
    assert (value + tail)[k..] == value[k..] + tail;
    OccursFurther(ph, value + tail, k);
  }

  /** An unsafe value, with a suitable text behind it, contains the placeholder. */
  lemma UnsafeIsCompleted(value: string, name: string) returns (tail: string)
    requires BraceFree(name) && !SafeFor(value, name)
    ensures '{' !in tail && Occurs(Placeholder(name), value + tail)
  {
    var ph := Placeholder(name);
    var k :| 0 <= k < |value| && (value[k..] <= ph || ph <= value[k..]);
    hide Placeholder, Occurs, SafeFor;
    if value[k..] <= ph {
      TailOfPlaceholder(name, |value| - k);
      tail := ph[|value| - k..];
      assert value[k..] + tail == ph;
    } else {
      tail := "";
      assert value[k..] + tail == value[k..];
    }
    OccursAtEnd(value, k, tail, ph);
  }

  /** A pass with nothing to insert erases: it shortens the text when there is something to erase, and leaves it otherwise. */
  lemma {:induction false} Erase(t: string, name: string)
    ensures var r := ReplaceAll(t, Placeholder(name), "");
            && |r| <= |t|
            && (Occurs(Placeholder(name), t) ==> |r| < |t|)
            && (!Occurs(Placeholder(name), t) ==> r == t)
    decreases |t|
  {
    if t != [] {
      if Placeholder(name) <= t {
        Erase(t[|name| + 2..], name);
      } else {
        Erase(t[1..], name);
        assert t == [t[0]] + t[1..];
      }
    }
  }

  predicate AllEmpty(passes: seq<Pass>) {
    forall k | 0 <= k < |passes| :: passes[k].value == ""
  }

  lemma {:induction false} NeverLonger(t: string, passes: seq<Pass>)
    requires AllEmpty(passes)
    ensures |RunPasses(t, passes)| <= |t|
    decreases |passes|
  {
    if passes != [] {
      Erase(t, passes[0].name);
      NeverLonger(ReplaceAll(t, Placeholder(passes[0].name), ""), passes[1..]);
    }
  }

  lemma {:induction false} Shorter(t: string, passes: seq<Pass>, j: nat)
    requires AllEmpty(passes) && j < |passes| && Occurs(Placeholder(passes[j].name), t)
    ensures |RunPasses(t, passes)| < |t|
    decreases |passes|
  {
    hide Occurs, Placeholder, ReplaceAll;
    var next := ReplaceAll(t, Placeholder(passes[0].name), "");
    Erase(t, passes[0].name);
    if Occurs(Placeholder(passes[0].name), t) {
      NeverLonger(next, passes[1..]);
    } else {
      Shorter(t, passes[1..], j - 1);
    }
  }

  lemma NothingBehind(tail: string, name: string, value: string)
    requires '{' !in tail
    ensures ReplaceAll(tail, Placeholder(name), value) == tail
  {
    ReplaceCopies(tail, "", name, value);
    assert tail + "" == tail;
  }

  /** The passes before a placeholder's own leave it alone, and its own inserts the value. */
  lemma {:induction false} RunToOwn(tail: string, passes: seq<Pass>, i: nat)
    requires '{' !in tail && i < |passes| && WellNamed(passes) && DistinctNames(passes)
    ensures RunPasses(Placeholder(passes[i].name) + tail, passes) == RunPasses(passes[i].value + tail, passes[i + 1..])
    decreases i
  {
    var p, text := passes[0], Placeholder(passes[i].name) + tail;
    NothingBehind(tail, p.name, p.value);
    assert text[|passes[i].name| + 2..] == tail;
    if i == 0 {
      hide Placeholder;
      assert ReplaceAll(text, Placeholder(p.name), p.value) == p.value + tail;
    } else {
      NotThatPlaceholder(text, passes[i].name, p.name);
      OtherPlaceholderStays(text, p, passes[i].name);
      hide Placeholder;
      RunToOwn(tail, passes[1..], i - 1);
      assert passes[1..][i - 1] == passes[i] && passes[1..][i..] == passes[i + 1..];
    }
  }

  lemma SubstituteOwn(tail: string, passes: seq<Pass>, i: nat)
    requires '{' !in tail && i < |passes| && WellNamed(passes) && DistinctNames(passes)
    ensures Substitute(Placeholder(passes[i].name) + tail, passes) == passes[i].value + tail
  {
    var text := Placeholder(passes[i].name) + tail;
    SubstituteAt(text, passes, i);
    assert text[|passes[i].name| + 2..] == tail;
    SubstituteCopies(tail, "", passes);
    assert tail + "" == tail;
  }

  /** With this value for one name, and any others without an opening brace, no unambiguous template goes wrong. */
  ghost predicate ValueIsFine(names: seq<string>, i: nat, value: string)
    requires i < |names|
  {
    forall tpl: string, passes: seq<Pass> |
      Names(passes) == names && !Ambiguous(tpl, names) && passes[i].value == value
      && (forall k | 0 <= k < |passes| && k != i :: '{' !in passes[k].value) ::
      RunPasses(tpl, passes) == Substitute(tpl, passes)
  }

  /** A value goes well with every unambiguous template exactly when it neither contains the placeholder of a later pass
      nor ends in a beginning of it. */
  lemma ValueIff(names: seq<string>, i: nat, value: string)
    requires GoodNames(names) && i < |names|
    ensures ValueIsFine(names, i, value) <==> forall j | i < j < |names| :: SafeFor(value, names[j])
  {
    hide SafeFor, Ambiguous;
    if j :| i < j < |names| && !SafeFor(value, names[j]) {
      UnsafeValueBreaks(names, i, value, j);
    } else {
      forall tpl: string, passes: seq<Pass> |
        Names(passes) == names && !Ambiguous(tpl, names) && passes[i].value == value
        && (forall k | 0 <= k < |passes| && k != i :: '{' !in passes[k].value)
        ensures RunPasses(tpl, passes) == Substitute(tpl, passes)
      {
        FineWithSafe(tpl, passes, i);
      }
    }
  }

  lemma FineWithSafe(tpl: string, passes: seq<Pass>, i: nat)
    requires GoodNames(Names(passes)) && i < |passes| && !Ambiguous(tpl, Names(passes))
    requires forall k | 0 <= k < |passes| && k != i :: '{' !in passes[k].value
    requires forall j | i < j < |passes| :: SafeFor(passes[i].value, Names(passes)[j])
    ensures RunPasses(tpl, passes) == Substitute(tpl, passes)
  {
    hide Ambiguous, SafeFor;
    forall a, b | 0 <= a < b < |passes| ensures SafeFor(passes[a].value, passes[b].name) {
      assert Names(passes)[b] == passes[b].name;
      if a != i { BracelessIsSafe(passes[a].value, passes[b].name); }
    }
    assert forall k | 0 <= k < |passes| :: Names(passes)[k] == passes[k].name;
    PassesAreSimultaneous(tpl, passes);
  }

  lemma OwnTemplateIsUnambiguous(names: seq<string>, i: nat, tail: string)
    requires GoodNames(names) && i < |names| && '{' !in tail
    ensures !Ambiguous(Placeholder(names[i]) + tail, names)
  {
    OpensAppend(Placeholder(names[i]), tail);
    PlaceholderOpens(names[i]);
    NoOpens(tail);
    hide Ambiguous;
    OneBraceIsUnambiguous(Placeholder(names[i]) + tail, names);
  }

  lemma UnsafeIsErased(tail: string, passes: seq<Pass>, i: nat, j: nat)
    requires '{' !in tail && i < j < |passes| && WellNamed(passes) && DistinctNames(passes) && AllEmpty(passes[i + 1..])
    requires Occurs(Placeholder(passes[j].name), passes[i].value + tail)
    ensures var tpl := Placeholder(passes[i].name) + tail; RunPasses(tpl, passes) != Substitute(tpl, passes)
  {
    hide Occurs, Placeholder, RunPasses, Substitute, AllEmpty, DistinctNames, WellNamed;
    RunToOwn(tail, passes, i);
    SubstituteOwn(tail, passes, i);
    assert passes[i + 1..][j - i - 1] == passes[j];
    Shorter(passes[i].value + tail, passes[i + 1..], j - i - 1);
  }

  lemma UnsafeValueBreaks(names: seq<string>, i: nat, value: string, j: nat)
    requires GoodNames(names) && i < j < |names| && !SafeFor(value, names[j])
    ensures !ValueIsFine(names, i, value)
  {
    var passes := Only(names, i, value);
    assert WellNamed(passes) && DistinctNames(passes) && AllEmpty(passes[i + 1..]);
    hide Occurs, SafeFor, Ambiguous, RunPasses, Substitute, Placeholder;
    var tail := UnsafeIsCompleted(value, names[j]);
    OwnTemplateIsUnambiguous(names, i, tail);
    UnsafeIsErased(tail, passes, i, j);
    hide WellNamed, DistinctNames, AllEmpty, GoodNames, BraceFree;
    var tpl := Placeholder(names[i]) + tail;
    assert RunPasses(tpl, passes) != Substitute(tpl, passes);
  }

  // ---- caption templates ----

  const CAPTION_NAMES := ["caption", "sender", "source_chat", "time"]

  lemma CaptionNames()
    ensures GoodNames(CAPTION_NAMES)
  {
  }

  lemma NamesOfCaptionPasses(caption: string, sender: string, sourceChat: string, time: string)
    ensures Names(CaptionPasses(caption, sender, sourceChat, time)) == CAPTION_NAMES
  {
  }

  lemma AreCaptionPasses(passes: seq<Pass>)
    requires Names(passes) == CAPTION_NAMES
    ensures passes == CaptionPasses(passes[0].value, passes[1].value, passes[2].value, passes[3].value)
  {
    assert forall k | 0 <= k < 4 :: passes[k].name == Names(passes)[k] == CAPTION_NAMES[k];
    assert passes == [passes[0], passes[1], passes[2], passes[3]];
  }

  /** What the code computes for a template is the template with all placeholders substituted at once. */
  predicate IsSubstituted(tpl: string, caption: string, sender: string, sourceChat: string, time: string) {
    var passes := CaptionPasses(caption, sender, sourceChat, time); RunPasses(tpl, passes) == Substitute(tpl, passes)
  }

  /** It is for every unambiguous template and safe values. */
  lemma CaptionIsSubstituted(tpl: string, caption: string, sender: string, sourceChat: string, time: string)
    requires !Ambiguous(tpl, CAPTION_NAMES) && SafeValues(CaptionPasses(caption, sender, sourceChat, time))
    ensures IsSubstituted(tpl, caption, sender, sourceChat, time)
  {
    CaptionNames();
    hide Ambiguous, SafeValues;
    var passes := CaptionPasses(caption, sender, sourceChat, time);
    NamesOfCaptionPasses(caption, sender, sourceChat, time);
    assert forall k | 0 <= k < |passes| :: Names(passes)[k] == passes[k].name;
    PassesAreSimultaneous(tpl, passes);
  }

  /** A template is right for all values without an opening brace exactly when it is not ambiguous. */
  lemma CaptionTemplateIff(tpl: string)
    ensures (forall caption: string, sender: string, sourceChat: string, time: string |
               '{' !in caption && '{' !in sender && '{' !in sourceChat && '{' !in time ::
               IsSubstituted(tpl, caption, sender, sourceChat, time))
       <==> !Ambiguous(tpl, CAPTION_NAMES)
  {
    CaptionNames();
    hide Ambiguous, GoodNames, RunPasses, Substitute;
    TemplateIff(tpl, CAPTION_NAMES);
    if Ambiguous(tpl, CAPTION_NAMES) {
      var passes: seq<Pass> :| Names(passes) == CAPTION_NAMES && Braceless(passes) && RunPasses(tpl, passes) != Substitute(tpl, passes);
      AreCaptionPasses(passes);
      assert !IsSubstituted(tpl, passes[0].value, passes[1].value, passes[2].value, passes[3].value);
    } else {
      forall caption: string, sender: string, sourceChat: string, time: string |
        '{' !in caption && '{' !in sender && '{' !in sourceChat && '{' !in time
        ensures IsSubstituted(tpl, caption, sender, sourceChat, time)
      {
        NamesOfCaptionPasses(caption, sender, sourceChat, time);
        assert Braceless(CaptionPasses(caption, sender, sourceChat, time));
      }
    }
  }

  /** A caption is right in every unambiguous template exactly when it neither contains a later placeholder nor ends in a
      beginning of one. */
  lemma CaptionValueIff(caption: string)
    ensures (forall tpl: string, sender: string, sourceChat: string, time: string |
               !Ambiguous(tpl, CAPTION_NAMES) && '{' !in sender && '{' !in sourceChat && '{' !in time ::
               IsSubstituted(tpl, caption, sender, sourceChat, time))
       <==> SafeFor(caption, "sender") && SafeFor(caption, "source_chat") && SafeFor(caption, "time")
  {
    CaptionNames();
    hide Ambiguous, GoodNames, RunPasses, Substitute, SafeFor;
    ValueIff(CAPTION_NAMES, 0, caption);
    assert CAPTION_NAMES[1] == "sender" && CAPTION_NAMES[2] == "source_chat" && CAPTION_NAMES[3] == "time";
    if ValueIsFine(CAPTION_NAMES, 0, caption) {
      forall tpl: string, sender: string, sourceChat: string, time: string |
        !Ambiguous(tpl, CAPTION_NAMES) && '{' !in sender && '{' !in sourceChat && '{' !in time
        ensures IsSubstituted(tpl, caption, sender, sourceChat, time)
      {
        NamesOfCaptionPasses(caption, sender, sourceChat, time);
      }
    } else {
      var tpl: string, passes: seq<Pass> :|
        Names(passes) == CAPTION_NAMES && !Ambiguous(tpl, CAPTION_NAMES) && passes[0].value == caption
        && (forall k | 0 <= k < |passes| && k != 0 :: '{' !in passes[k].value)
        && RunPasses(tpl, passes) != Substitute(tpl, passes);
      AreCaptionPasses(passes);
      assert !IsSubstituted(tpl, caption, passes[1].value, passes[2].value, passes[3].value);
    }
  }

  /** The text before the caption when it answers another message: the sender, and at most eighty characters of what was said. */
  predicate IsQuote(quote: string, replyToSender: string, replyToCaption: string) {
    if replyToSender == "" then quote == ""
    else if |replyToCaption| <= 80 then quote == "> **In reply to " + replyToSender + ":**\n> " + replyToCaption + "\n\n"
    else quote == "> **In reply to " + replyToSender + ":**\n> " + replyToCaption[..77] + "...\n\n"
  }

  lemma QuoteIsRight(replyToSender: string, replyToCaption: string)
    ensures IsQuote(ReplyQuote(replyToSender, replyToCaption), replyToSender, replyToCaption)
  {
    if replyToSender != "" && |replyToCaption| > 80 {
      var front, back := "> **In reply to " + replyToSender + ":**\n> ", replyToCaption[..77];
      assert front + (back + "...") + "\n\n" == front + back + "...\n\n";
    }
  }

  /** Without a template the caption follows the quote as it is. */
  lemma PlainCaption(caption: string, sender: string, sourceId: string, replyToSender: string, replyToCaption: string, time: string, quote: string)
    requires IsQuote(quote, replyToSender, replyToCaption)
    ensures Formatted(caption, sender, sourceId, replyToSender, replyToCaption, "", time) == Trim(quote + caption)
  {
    QuoteIsRight(replyToSender, replyToCaption);
    hide Trim, ReplyQuote;
  }

  /** With a template, unambiguous and with safe values, the quote is followed by the template with every value under its
      own placeholder. */
  lemma TemplatedCaption(caption: string, sender: string, sourceId: string, replyToSender: string, replyToCaption: string,
                         tpl: string, time: string, quote: string)
    requires tpl != "" && !Ambiguous(tpl, CAPTION_NAMES) && SafeValues(CaptionPasses(caption, sender, sourceId, time))
    requires IsQuote(quote, replyToSender, replyToCaption)
    ensures var passes := [Pass("caption", caption), Pass("sender", sender), Pass("source_chat", sourceId), Pass("time", time)];
            Formatted(caption, sender, sourceId, replyToSender, replyToCaption, tpl, time) == Trim(quote + Substitute(tpl, passes))
  {
    CaptionIsSubstituted(tpl, caption, sender, sourceId, time);
    QuoteIsRight(replyToSender, replyToCaption);
    hide Trim, ReplyQuote, Substitute, RunPasses, Ambiguous, SafeValues;
  }

  lemma SubstituteAround(front: string, tail: string, passes: seq<Pass>, i: nat)
    requires '{' !in front && '{' !in tail && i < |passes| && WellNamed(passes) && DistinctNames(passes)
    ensures Substitute(front + Placeholder(passes[i].name) + tail, passes) == front + passes[i].value + tail
  {
    hide Substitute, Placeholder, WellNamed, DistinctNames;
    var own := Placeholder(passes[i].name);
    assert front + own + tail == front + (own + tail);
    SubstituteCopies(front, own + tail, passes);
    SubstituteOwn(tail, passes, i);
    assert front + (passes[i].value + tail) == front + passes[i].value + tail;
  }

  /** In particular each of the four placeholders alone is replaced by its own value, and the text around it is kept. */
  lemma OwnValue(front: string, tail: string, caption: string, sender: string, sourceChat: string, time: string)
    requires '{' !in front && '{' !in tail
    ensures var passes := CaptionPasses(caption, sender, sourceChat, time);
            && Substitute(front + "{caption}" + tail, passes) == front + caption + tail
            && Substitute(front + "{sender}" + tail, passes) == front + sender + tail
            && Substitute(front + "{source_chat}" + tail, passes) == front + sourceChat + tail
            && Substitute(front + "{time}" + tail, passes) == front + time + tail
  {
    var passes := CaptionPasses(caption, sender, sourceChat, time);
    CaptionNames();
    NamesOfCaptionPasses(caption, sender, sourceChat, time);
    assert forall k | 0 <= k < 4 :: passes[k].name == CAPTION_NAMES[k];
    PlaceholderNames();
    hide Substitute, Placeholder;
    SubstituteAround(front, tail, passes, 0);
    SubstituteAround(front, tail, passes, 1);
    SubstituteAround(front, tail, passes, 2);
    SubstituteAround(front, tail, passes, 3);
  }

  // ---- examples ----

  lemma {:induction false} NothingInBraceFree(s: string, name: string, value: string)
    requires BraceFree(s)
    ensures ReplaceAll(s, Placeholder(name), value) == s
    decreases |s|
  {
    if s != [] {
      assert s[0] in s && Placeholder(name)[0] == '{';
      NothingInBraceFree(s[1..], name, value);
    }
  }

  lemma ReplaceWhole(target: string, value: string)
    requires target != []
    ensures ReplaceAll(target, target, value) == value
  {
    assert target[|target|..] == [] && value + [] == value;
  }

  lemma ReplaceNested(name: string, value: string)
    requires BraceFree(name)
    ensures ReplaceAll(['{'] + (Placeholder(name) + ['}']), Placeholder(name), value) == Placeholder(value)
  {
    var p := Placeholder(name);
    var inner := p + ['}'];
    var s := ['{'] + inner;
    assert p[1] != '{' by { assert name != "" ==> p[1] == name[0] && name[0] in name; }
    assert s[1] == '{' && s[1..] == inner;
    assert p <= inner && inner[|p|..] == ['}'];
    NothingInBraceless(p, value);
    assert ReplaceAll(s, p, value) == ['{'] + (value + ['}']);
  }

  lemma NothingInBraceless(p: string, value: string)
    requires |p| >= 2
    ensures ReplaceAll(['}'], p, value) == ['}']
  {
    assert ['}'][1..] == [];
  }

  /** A caption that becomes the placeholder of the sender is replaced by the sender in the second pass. */
  lemma SecondPassReplaces(tpl: string, caption: string)
    requires ReplaceAll(tpl, "{caption}", caption) == "{sender}"
    ensures RunPasses(tpl, CaptionPasses(caption, "Ann", "", "")) == "Ann"
  {
    PlaceholderNames();
    FourPasses(tpl, caption, "Ann", "", "");
    ReplaceWhole("{sender}", "Ann");
    NothingInBraceFree("Ann", "source_chat", "");
    NothingInBraceFree("Ann", "time", "");
  }

  lemma NestedTemplate(passes: seq<Pass>)
    requires passes == CaptionPasses("sender", "Ann", "", "")
    ensures RunPasses("{{caption}}", passes) == "Ann"
  {
    PlaceholderNames();
    assert "{{caption}}" == ['{'] + ("{caption}" + ['}']);
    hide ReplaceAll, RunPasses, Placeholder;
    ReplaceNested("caption", "sender");
    SecondPassReplaces("{{caption}}", "sender");
  }

  lemma NestedKeepsBrace(tpl: string, passes: seq<Pass>)
    requires |tpl| >= 2 && tpl[0] == '{' == tpl[1]
    requires forall i | 0 <= i < |passes| :: passes[i].name != "" && passes[i].name[0] != '{'
    ensures Substitute(tpl, passes) != [] && Substitute(tpl, passes)[0] == '{'
  {
    NoMatchBeforeBrace(tpl, passes);
    SubstituteSteps(tpl, passes);
  }

  /** A brace-free caption inside nested braces can spell another placeholder, which a later pass then replaces. */
  lemma NestingBreaksIt()
    ensures !IsSubstituted("{{caption}}", "sender", "Ann", "", "")
  {
    hide RunPasses, Substitute;
    var passes := CaptionPasses("sender", "Ann", "", "");
    NestedTemplate(passes);
    NestedKeepsBrace("{{caption}}", passes);
    assert "Ann"[0] == 'A';
  }

  lemma {:induction false} NoMatchBeforeBrace(s: string, passes: seq<Pass>)
    requires |s| >= 2 && s[1] == '{'
    requires forall i | 0 <= i < |passes| :: passes[i].name != "" && passes[i].name[0] != '{'
    ensures Match(s, passes) == |passes|
    decreases |passes|
  {
    if passes != [] {
      assert Placeholder(passes[0].name)[1] != s[1];
      NoMatchBeforeBrace(s, passes[1..]);
    }
  }

  lemma PlainCaptionTemplate()
    ensures !Ambiguous("{caption}", CAPTION_NAMES)
  {
    hide Ambiguous, GoodNames;
    CaptionNames();
    NamesAreBraceFree();
    PlaceholderNames();
    PlaceholderOpens("caption");
    OneBraceIsUnambiguous("{caption}", CAPTION_NAMES);
  }

  lemma NamesAreBraceFree()
    ensures BraceFree("caption") && BraceFree("sender") && BraceFree("source_chat") && BraceFree("time")
  {
  }

  /** A caption that spells a placeholder is expanded a second time, in an unambiguous template. */
  lemma BracedValueBreaksIt()
    ensures !Ambiguous("{caption}", CAPTION_NAMES) && !IsSubstituted("{caption}", "{sender}", "Ann", "", "")
  {
    PlainCaptionTemplate();
    hide Ambiguous, RunPasses;
    var passes := CaptionPasses("{sender}", "Ann", "", "");
    PlaceholderNames();
    ReplaceWhole("{caption}", "{sender}");
    SecondPassReplaces("{caption}", "{sender}");
    assert Match("{caption}", passes) == 0;
    SubstituteSteps("{caption}", passes);
    hide ReplaceAll;
    assert Substitute("{caption}", passes)[0] == '{' != "Ann"[0];
  }

  /** Nested braces alone do no harm: no pass after the last one can be misled. */
  lemma BracedTimeIsFine(caption: string, sender: string, sourceChat: string, time: string)
    requires SafeValues(CaptionPasses(caption, sender, sourceChat, time))
    ensures IsSubstituted("{{time}}", caption, sender, sourceChat, time)
  {
    assert !Ambiguous("{{time}}", CAPTION_NAMES) by { BracedTimeIsUnambiguous(); }
    CaptionIsSubstituted("{{time}}", caption, sender, sourceChat, time);
  }

  lemma {:induction false} OccursPart(u: string, w: string, s: string)
    requires Occurs(u + w, s)
    ensures Occurs(w, s)
    decreases |s|
  {
    if u + w <= s {
      assert w <= s[|u|..] by { assert s[..|u + w|] == u + w; }
      OccursFurther(w, s, |u|);
    } else {
      OccursPart(u, w, s[1..]);
    }
  }

  lemma {:induction false} OccursFits(w: string, s: string)
    requires Occurs(w, s)
    ensures |w| < |s| || w == s
    decreases |s|
  {
    if !(w <= s) { OccursFits(w, s[1..]); }
  }

  lemma BracedTimeIsUnambiguous()
    ensures !Ambiguous("{{time}}", CAPTION_NAMES)
  {
    PlaceholderNames();
    hide Placeholder, Occurs;
    forall i, j, m | 0 <= i < j < 4 && 0 <= m <= |CAPTION_NAMES[j]|
      ensures !Occurs(Opening(CAPTION_NAMES[j], m, CAPTION_NAMES[i]), "{{time}}")
    {
      var name, hole := CAPTION_NAMES[j], CAPTION_NAMES[i];
      assert hole == "caption" || hole == "sender" || hole == "source_chat";
      assert Opening(name, m, hole) == (['{'] + name[..m]) + Placeholder(hole);
      assert "{sender}"[1] != "{{time}}"[1];
      if Occurs(Opening(name, m, hole), "{{time}}") {
        OccursPart(['{'] + name[..m], Placeholder(hole), "{{time}}");
        OccursFits(Placeholder(hole), "{{time}}");
      }
    }
  }
}
