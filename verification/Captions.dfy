/** Caption templates and reply quotes (applyFormatting). */
module Captions {
  import opened Text

  /** One replacement pass: every occurrence of the placeholder {name} becomes value. */
  datatype Pass = Pass(name: string, value: string)

  predicate BraceFree(s: string) {
    '{' !in s && '}' !in s
  }

  function Placeholder(name: string): (p: string)
    ensures |p| == |name| + 2 && p[0] == '{'
  {
    ['{'] + (name + ['}'])
  }

  predicate WellNamed(passes: seq<Pass>) {
    forall i | 0 <= i < |passes| :: BraceFree(passes[i].name)
  }

  /** strings.ReplaceAll: leftmost occurrences first, never looking again at what was inserted. */
  function ReplaceAll(s: string, target: string, value: string): string
    requires target != []
    decreases |s|
  {
    if s == [] then []
    else if target <= s then value + ReplaceAll(s[|target|..], target, value)
    else [s[0]] + ReplaceAll(s[1..], target, value)
  }

  /** The passes one after the other, each over the whole result of the one before. */
  function RunPasses(s: string, passes: seq<Pass>): string
    decreases |passes|
  {
    if passes == [] then s
    else RunPasses(ReplaceAll(s, Placeholder(passes[0].name), passes[0].value), passes[1..])
  }

  /** Index of the first pass whose placeholder starts s, or the number of passes when there is none. */
  function Match(s: string, passes: seq<Pass>): (k: nat)
    ensures k <= |passes|
    ensures k < |passes| ==> Placeholder(passes[k].name) <= s
    decreases |passes|
  {
    if passes == [] || Placeholder(passes[0].name) <= s then 0 else 1 + Match(s, passes[1..])
  }

  /** One left-to-right scan that replaces every placeholder of the template at once. */
  function Substitute(s: string, passes: seq<Pass>): string
    decreases |s|
  {
    if s == [] then []
    else
      var k := Match(s, passes);
      if k < |passes| then passes[k].value + Substitute(s[|passes[k].name| + 2..], passes)
      else [s[0]] + Substitute(s[1..], passes)
  }

  // ---- what can go wrong ----

  predicate Occurs(w: string, s: string)
    decreases |s|
  {
    w <= s || (s != [] && Occurs(w, s[1..]))
  }

  /** An opening brace, the first m characters of a name, and the placeholder of another: a value in that place can complete
      the first name's placeholder. */
  function Opening(name: string, m: nat, hole: string): (w: string)
    requires m <= |name|
    ensures w != [] && w[0] == '{'
  {
    ['{'] + (name[..m] + Placeholder(hole))
  }

  function Names(passes: seq<Pass>): (names: seq<string>)
    ensures |names| == |passes| && forall i | 0 <= i < |passes| :: names[i] == passes[i].name
  {
    seq(|passes|, i requires 0 <= i < |passes| => passes[i].name)
  }

  /** Somewhere in the template a placeholder stands where its value can complete the placeholder of a later pass. */
  predicate Ambiguous(tpl: string, names: seq<string>) {
    exists i, j | 0 <= i < j < |names| :: exists m | 0 <= m <= |names[j]| :: Occurs(Opening(names[j], m, names[i]), tpl)
  }

  /** No rest of the value begins like the placeholder or is a beginning of it. */
  predicate SafeFor(value: string, name: string) {
    forall k | 0 <= k < |value| :: !(value[k..] <= Placeholder(name)) && !(Placeholder(name) <= value[k..])
  }

  /** No value contains the placeholder of a later pass or ends in a beginning of it. */
  predicate SafeValues(passes: seq<Pass>) {
    forall i, j | 0 <= i < j < |passes| :: SafeFor(passes[i].value, passes[j].name)
  }

  /** In particular a value without an opening brace is safe for every name. */
  lemma BracelessIsSafe(value: string, name: string)
    requires '{' !in value
    ensures SafeFor(value, name)
  {
    forall k | 0 <= k < |value| ensures !(value[k..] <= Placeholder(name)) && !(Placeholder(name) <= value[k..]) {
      assert value[k..][0] == value[k] != '{';
    }
  }

  // ---- the passes are one substitution ----

  lemma SubstituteSteps(s: string, passes: seq<Pass>)
    requires s != []
    ensures var k := Match(s, passes);
            Substitute(s, passes) == if k < |passes| then passes[k].value + Substitute(s[|passes[k].name| + 2..], passes)
                                     else [s[0]] + Substitute(s[1..], passes)
  {
  }

  lemma {:induction false} SubstituteCopies(u: string, w: string, passes: seq<Pass>)
    requires '{' !in u
    ensures Substitute(u + w, passes) == u + Substitute(w, passes)
    decreases |u|
  {
    if u == [] {
      assert u + w == w;
    } else {
      assert (u + w)[1..] == u[1..] + w;
      SubstituteCopies(u[1..], w, passes);
    }
  }

  lemma {:induction false} ReplaceCopies(u: string, w: string, name: string, value: string)
    requires '{' !in u
    ensures ReplaceAll(u + w, Placeholder(name), value) == u + ReplaceAll(w, Placeholder(name), value)
    decreases |u|
  {
    if u == [] {
      assert u + w == w;
    } else {
      assert (u + w)[1..] == u[1..] + w;
      ReplaceCopies(u[1..], w, name, value);
    }
  }

  lemma {:induction false} OccursFurther(w: string, s: string, n: nat)
    requires n <= |s| && Occurs(w, s[n..])
    ensures Occurs(w, s)
    decreases n
  {
    if n == 0 {
      assert s[0..] == s;
    } else {
      assert s[1..][n - 1..] == s[n..];
      OccursFurther(w, s[1..], n - 1);
    }
  }

  /** A placeholder of one of the passes done stands where its value can complete the name's placeholder. */
  predicate Clash(s: string, done: seq<Pass>, name: string) {
    exists i, m | 0 <= i < |done| && 0 <= m <= |name| :: Occurs(Opening(name, m, done[i].name), s)
  }

  lemma NoClashFurther(s: string, n: nat, done: seq<Pass>, name: string)
    requires n <= |s| && !Clash(s, done, name)
    ensures !Clash(s[n..], done, name)
  {
    forall i, m | 0 <= i < |done| && 0 <= m <= |name| ensures !Occurs(Opening(name, m, done[i].name), s[n..]) {
      if Occurs(Opening(name, m, done[i].name), s[n..]) { OccursFurther(Opening(name, m, done[i].name), s, n); }
    }
  }

  /** The rest of a name at the front, or a beginning of it that a placeholder of the passes follows. */
  predicate Leads(name: string, s: string, passes: seq<Pass>) {
    name + ['}'] <= s || exists i, m | 0 <= i < |passes| && 0 <= m <= |name| :: name[..m] + Placeholder(passes[i].name) <= s
  }

  lemma LeadsOn(name: string, s: string, passes: seq<Pass>)
    requires name != [] && s != [] && name[0] == s[0] && Leads(name[1..], s[1..], passes)
    ensures Leads(name, s, passes)
  {
    assert s == [s[0]] + s[1..];
    if name[1..] + ['}'] <= s[1..] {
      assert name + ['}'] == [s[0]] + (name[1..] + ['}']);
    } else {
      var i, m :| 0 <= i < |passes| && 0 <= m <= |name[1..]| && name[1..][..m] + Placeholder(passes[i].name) <= s[1..];
      assert name[..m + 1] + Placeholder(passes[i].name) == [s[0]] + (name[1..][..m] + Placeholder(passes[i].name));
    }
  }

  /** Substituting completes the rest of a name only where it stood already, or behind a beginning of the name that a
      placeholder follows. */
  lemma {:induction false} NoNewPlaceholder(name: string, s: string, passes: seq<Pass>)
    requires name + ['}'] <= Substitute(s, passes)
    ensures Leads(name, s, passes)
    decreases |name|
  {
    assert s != [];
    SubstituteSteps(s, passes);
    var i := Match(s, passes);
    if i < |passes| {
      assert name[..0] + Placeholder(passes[i].name) <= s;
    } else {
      var rest := Substitute(s[1..], passes);
      hide Substitute, Match;
      assert (name + ['}'])[0] == s[0];
      if name == [] {
        assert name + ['}'] == [s[0]] && s == [s[0]] + s[1..];
      } else {
        assert name[1..] + ['}'] == (name + ['}'])[1..] <= ([s[0]] + rest)[1..] == rest;
        hide Leads;
        NoNewPlaceholder(name[1..], s[1..], passes);
        LeadsOn(name, s, passes);
      }
    }
  }

  lemma {:induction false} MatchAppended(s: string, done: seq<Pass>, p: Pass)
    ensures Match(s, done + [p]) == if Match(s, done) < |done| then Match(s, done)
                                    else if Placeholder(p.name) <= s then |done| else |done| + 1
    decreases |done|
  {
    if done == [] {
      assert done + [p] == [p];
    } else {
      assert (done + [p])[1..] == done[1..] + [p];
      MatchAppended(s, done[1..], p);
    }
  }

  /** A placeholder no pass so far is for stays in place for the next pass to find. */
  lemma PlaceholderIsCopied(name: string, s: string, done: seq<Pass>)
    requires BraceFree(name) && Placeholder(name) <= s && Match(s, done) == |done|
    ensures Substitute(s, done) == Placeholder(name) + Substitute(s[|name| + 2..], done)
  {
    SubstituteSteps(s, done);
    var inner, rest := name + ['}'], s[|name| + 2..];
    AfterBrace(name, s);
    SubstituteCopies(inner, rest, done);
    PrependBrace(name, Substitute(rest, done));
  }

  lemma AfterBrace(name: string, s: string)
    requires Placeholder(name) <= s
    ensures s[0] == '{' && s[1..] == name + ['}'] + s[|name| + 2..]
  {
    assert s == Placeholder(name) + s[|name| + 2..];
  }

  lemma PrependBrace(name: string, rest: string)
    ensures ['{'] + (name + ['}'] + rest) == Placeholder(name) + rest
  {
  }

  lemma SafeFront(u: string, w: string, name: string)
    requires u != [] && SafeFor(u, name)
    ensures !(Placeholder(name) <= u + w)
  {
    assert u[0..] == u;
    if Placeholder(name) <= u + w { FrontsAgree(u, w, Placeholder(name)); }
  }

  lemma FrontsAgree(u: string, w: string, front: string)
    requires front <= u + w
    ensures front <= u || u <= front
  {
    if |front| <= |u| {
      assert front == (u + w)[..|front|] == u[..|front|];
    } else {
      assert front[..|u|] == (u + w)[..|u|] == u;
    }
  }

  lemma SafeTail(u: string, name: string)
    requires u != [] && SafeFor(u, name)
    ensures SafeFor(u[1..], name)
  {
    assert forall k | 0 <= k < |u[1..]| :: u[1..][k..] == u[k + 1..];
  }

  /** A safe value is passed over whatever follows it. */
  lemma {:induction false} SafeIsCopied(u: string, w: string, name: string, value: string)
    requires SafeFor(u, name)
    ensures ReplaceAll(u + w, Placeholder(name), value) == u + ReplaceAll(w, Placeholder(name), value)
    decreases |u|
  {
    hide SafeFor, Placeholder;
    if u == [] {
      assert u + w == w;
    } else {
      SafeFront(u, w, name);
      SafeTail(u, name);
      assert (u + w)[1..] == u[1..] + w;
      SafeIsCopied(u[1..], w, name, value);
    }
  }

  /** One more pass over a substituted template adds exactly that placeholder to the substitution. */
  lemma {:induction false} PassExtends(s: string, done: seq<Pass>, p: Pass)
    requires BraceFree(p.name) && !Clash(s, done, p.name)
    requires forall i | 0 <= i < |done| :: SafeFor(done[i].value, p.name)
    ensures ReplaceAll(Substitute(s, done), Placeholder(p.name), p.value) == Substitute(s, done + [p])
    decreases |s|
  {
    hide Substitute, Match, Placeholder, BraceFree, ReplaceAll, Clash, SafeFor;
    if s == [] {
      NothingToReplace(done, p);
      return;
    }
    var k := Match(s, done);
    if k < |done| {
      NoClashFurther(s, |done[k].name| + 2, done, p.name);
      PassExtends(s[|done[k].name| + 2..], done, p);
      ExtendsAtDone(s, done, p);
    } else if Placeholder(p.name) <= s {
      NoClashFurther(s, |p.name| + 2, done, p.name);
      PassExtends(s[|p.name| + 2..], done, p);
      ExtendsAtNew(s, done, p);
    } else {
      StaysUnmatched(s, done, p.name);
      NoClashFurther(s, 1, done, p.name);
      PassExtends(s[1..], done, p);
      ExtendsAtOther(s, done, p);
    }
  }

  lemma NothingToReplace(done: seq<Pass>, p: Pass)
    ensures ReplaceAll(Substitute([], done), Placeholder(p.name), p.value) == Substitute([], done + [p])
  {
  }

  lemma ExtendsAtDone(s: string, done: seq<Pass>, p: Pass)
    requires s != [] && Match(s, done) < |done| && SafeFor(done[Match(s, done)].value, p.name)
    requires var rest := s[|done[Match(s, done)].name| + 2..];
             ReplaceAll(Substitute(rest, done), Placeholder(p.name), p.value) == Substitute(rest, done + [p])
    ensures ReplaceAll(Substitute(s, done), Placeholder(p.name), p.value) == Substitute(s, done + [p])
  {
    MatchAppended(s, done, p);
    SubstituteSteps(s, done);
    SubstituteSteps(s, done + [p]);
    var q := done[Match(s, done)];
    assert (done + [p])[Match(s, done)] == q;
    hide Substitute, Match, Placeholder, ReplaceAll, SafeFor;
    SafeIsCopied(q.value, Substitute(s[|q.name| + 2..], done), p.name, p.value);
  }

  lemma ExtendsAtNew(s: string, done: seq<Pass>, p: Pass)
    requires s != [] && Match(s, done) == |done| && Placeholder(p.name) <= s && BraceFree(p.name)
    requires var rest := s[|p.name| + 2..];
             ReplaceAll(Substitute(rest, done), Placeholder(p.name), p.value) == Substitute(rest, done + [p])
    ensures ReplaceAll(Substitute(s, done), Placeholder(p.name), p.value) == Substitute(s, done + [p])
  {
    MatchAppended(s, done, p);
    SubstituteSteps(s, done + [p]);
    hide Substitute, Match, Placeholder, BraceFree;
    PlaceholderIsCopied(p.name, s, done);
    var tail := Substitute(s[|p.name| + 2..], done);
    assert (Placeholder(p.name) + tail)[|p.name| + 2..] == tail;
  }

  lemma ExtendsAtOther(s: string, done: seq<Pass>, p: Pass)
    requires s != [] && Match(s, done) == |done| && !(Placeholder(p.name) <= s)
    requires !(Placeholder(p.name) <= [s[0]] + Substitute(s[1..], done))
    requires ReplaceAll(Substitute(s[1..], done), Placeholder(p.name), p.value) == Substitute(s[1..], done + [p])
    ensures ReplaceAll(Substitute(s, done), Placeholder(p.name), p.value) == Substitute(s, done + [p])
  {
    MatchAppended(s, done, p);
    SubstituteSteps(s, done);
    SubstituteSteps(s, done + [p]);
    hide Substitute, Match, Placeholder;
    var tail := Substitute(s[1..], done);
    assert ([s[0]] + tail)[1..] == tail;
  }

  /** A placeholder that a substitution completes behind an opening brace was announced by a clash. */
  lemma NewPlaceholderClashes(s: string, done: seq<Pass>, name: string)
    requires s != [] && s[0] == '{' && name + ['}'] <= Substitute(s[1..], done)
    ensures name + ['}'] <= s[1..] || Clash(s, done, name)
  {
    NoNewPlaceholder(name, s[1..], done);
    hide Substitute;
    if !(name + ['}'] <= s[1..]) {
      var i, m :| 0 <= i < |done| && 0 <= m <= |name| && name[..m] + Placeholder(done[i].name) <= s[1..];
      assert s == ['{'] + s[1..];
      assert Opening(name, m, done[i].name) <= s;
      assert Occurs(Opening(name, m, done[i].name), s);
    }
  }

  lemma StaysUnmatched(s: string, done: seq<Pass>, name: string)
    requires s != [] && !Clash(s, done, name) && !(Placeholder(name) <= s)
    ensures !(Placeholder(name) <= [s[0]] + Substitute(s[1..], done))
  {
    hide Clash, Substitute;
    var tail := Substitute(s[1..], done);
    assert s == [s[0]] + s[1..];
    if Placeholder(name) <= [s[0]] + tail {
      assert name + ['}'] == Placeholder(name)[1..] <= ([s[0]] + tail)[1..] == tail;
      NewPlaceholderClashes(s, done, name);
    }
  }

  /** The steps of a run of passes: what is done is one substitution of the template. */
  lemma {:induction false} PassesContinue(s: string, done: seq<Pass>, todo: seq<Pass>)
    requires WellNamed(todo) && SafeValues(done + todo) && !Ambiguous(s, Names(done + todo))
    ensures RunPasses(Substitute(s, done), todo) == Substitute(s, done + todo)
    decreases |todo|
  {
    if todo == [] {
      assert done + todo == done;
    } else {
      var all, p := done + todo, todo[0];
      assert done + [p] + todo[1..] == all;
      NextPassIsSafe(s, done, todo);
      hide SafeValues, Ambiguous, Clash;
      PassExtends(s, done, p);
      PassesContinue(s, done + [p], todo[1..]);
    }
  }

  lemma ClashIsAmbiguous(s: string, done: seq<Pass>, todo: seq<Pass>)
    requires todo != [] && Clash(s, done, todo[0].name)
    ensures Ambiguous(s, Names(done + todo))
  {
    var names, j := Names(done + todo), |done|;
    var i, m :| 0 <= i < |done| && 0 <= m <= |todo[0].name| && Occurs(Opening(todo[0].name, m, done[i].name), s);
    assert names[j] == todo[0].name && names[i] == done[i].name;
    assert Occurs(Opening(names[j], m, names[i]), s);
  }

  lemma NextPassIsSafe(s: string, done: seq<Pass>, todo: seq<Pass>)
    requires todo != [] && SafeValues(done + todo) && !Ambiguous(s, Names(done + todo))
    ensures !Clash(s, done, todo[0].name)
    ensures forall i | 0 <= i < |done| :: SafeFor(done[i].value, todo[0].name)
  {
    hide SafeFor, Clash, Ambiguous;
    var all := done + todo;
    assert all[|done|] == todo[0] && forall i | 0 <= i < |done| :: all[i] == done[i];
    if Clash(s, done, todo[0].name) { ClashIsAmbiguous(s, done, todo); }
  }

  lemma {:induction false} SubstituteNothing(s: string)
    ensures Substitute(s, []) == s
    decreases |s|
  {
    if s != [] { SubstituteNothing(s[1..]); }
  }

  /** With an unambiguous template and safe values, replacing one placeholder after the other equals one simultaneous
      substitution. */
  lemma PassesAreSimultaneous(tpl: string, passes: seq<Pass>)
    requires WellNamed(passes) && SafeValues(passes) && !Ambiguous(tpl, Names(passes))
    ensures RunPasses(tpl, passes) == Substitute(tpl, passes)
  {
    hide WellNamed, SafeValues, Ambiguous;
    SubstituteNothing(tpl);
    assert [] + passes == passes;
    PassesContinue(tpl, [], passes);
  }

  lemma {:induction false} SameName(a: string, b: string, s: string)
    requires BraceFree(a) && BraceFree(b) && a + ['}'] <= s && b + ['}'] <= s
    ensures a == b
    decreases |a|
  {
    assert (a + ['}'])[0] == s[0] == (b + ['}'])[0];
    if a != [] && b != [] {
      SameName(a[1..], b[1..], s[1..]);
      assert a == [s[0]] + a[1..] && b == [s[0]] + b[1..];
    }
  }

  lemma {:induction false} MatchFinds(s: string, passes: seq<Pass>, i: nat)
    requires WellNamed(passes) && i < |passes| && Placeholder(passes[i].name) <= s
    ensures Match(s, passes) < |passes| && passes[Match(s, passes)].name == passes[i].name
    decreases |passes|
  {
    if Placeholder(passes[0].name) <= s {
      assert Placeholder(passes[0].name)[1..] <= s[1..] && Placeholder(passes[i].name)[1..] <= s[1..];
      SameName(passes[0].name, passes[i].name, s[1..]);
    } else {
      MatchFinds(s, passes[1..], i - 1);
    }
  }

  /** Passes that give each name one value. */
  predicate Consistent(passes: seq<Pass>) {
    forall i, j | 0 <= i < j < |passes| :: passes[i].name == passes[j].name ==> passes[i].value == passes[j].value
  }

  lemma SameMatch(s: string, ps: seq<Pass>, qs: seq<Pass>)
    requires WellNamed(ps) && WellNamed(qs) && Consistent(ps)
    requires forall p :: p in ps ==> p in qs
    requires forall p :: p in qs ==> p in ps
    requires Match(s, ps) < |ps|
    ensures Match(s, qs) < |qs| && ps[Match(s, ps)] == qs[Match(s, qs)]
  {
    var p := ps[Match(s, ps)];
    assert p in qs;
    var j :| 0 <= j < |qs| && qs[j] == p;
    MatchFinds(s, qs, j);
    assert qs[Match(s, qs)] in ps;
  }

  lemma {:induction false} SubstitutesTheSame(s: string, ps: seq<Pass>, qs: seq<Pass>)
    requires WellNamed(ps) && WellNamed(qs) && Consistent(ps) && Consistent(qs)
    requires forall p :: p in ps ==> p in qs
    requires forall p :: p in qs ==> p in ps
    ensures Substitute(s, ps) == Substitute(s, qs)
    decreases |s|
  {
    if s == [] { return; }
    if Match(s, ps) < |ps| {
      SameMatch(s, ps, qs);
      SubstitutesTheSame(s[|ps[Match(s, ps)].name| + 2..], ps, qs);
    } else {
      if Match(s, qs) < |qs| { SameMatch(s, qs, ps); }
      SubstitutesTheSame(s[1..], ps, qs);
    }
  }

  /** Where both orders meet these conditions, the order in which the placeholders are replaced does not matter. */
  lemma PassOrderIsIrrelevant(tpl: string, ps: seq<Pass>, qs: seq<Pass>)
    requires WellNamed(ps) && WellNamed(qs) && Consistent(ps) && Consistent(qs)
    requires SafeValues(ps) && SafeValues(qs) && !Ambiguous(tpl, Names(ps)) && !Ambiguous(tpl, Names(qs))
    requires forall p :: p in ps <==> p in qs
    ensures RunPasses(tpl, ps) == RunPasses(tpl, qs)
  {
    PassesAreSimultaneous(tpl, ps);
    PassesAreSimultaneous(tpl, qs);
    SubstitutesTheSame(tpl, ps, qs);
  }

  function CaptionPasses(caption: string, sender: string, sourceChat: string, time: string): (passes: seq<Pass>)
    ensures |passes| == 4
  {
    [Pass("caption", caption), Pass("sender", sender), Pass("source_chat", sourceChat), Pass("time", time)]
  }

  lemma FourPasses(tpl: string, caption: string, sender: string, sourceChat: string, time: string)
    ensures RunPasses(tpl, CaptionPasses(caption, sender, sourceChat, time))
         == ReplaceAll(ReplaceAll(ReplaceAll(ReplaceAll(tpl, "{caption}", caption), "{sender}", sender),
                                  "{source_chat}", sourceChat), "{time}", time)
  {
    PlaceholderNames();
    hide ReplaceAll, Placeholder;
    var t1 := ReplaceAll(tpl, "{caption}", caption);
    var t2 := ReplaceAll(t1, "{sender}", sender);
    var t3 := ReplaceAll(t2, "{source_chat}", sourceChat);
    var p2, p3, p4 := Pass("sender", sender), Pass("source_chat", sourceChat), Pass("time", time);
    assert CaptionPasses(caption, sender, sourceChat, time) == [Pass("caption", caption)] + [p2, p3, p4];
    OnePass(tpl, Pass("caption", caption), [p2, p3, p4]);
    OnePass(t1, p2, [p3, p4]);
    OnePass(t2, p3, [p4]);
    OnePass(t3, p4, []);
  }

  lemma OnePass(s: string, p: Pass, rest: seq<Pass>)
    ensures RunPasses(s, [p] + rest) == RunPasses(ReplaceAll(s, Placeholder(p.name), p.value), rest)
  {
    assert ([p] + rest)[1..] == rest;
  }

  lemma PlaceholderNames()
    ensures Placeholder("caption") == "{caption}" && Placeholder("sender") == "{sender}"
    ensures Placeholder("source_chat") == "{source_chat}" && Placeholder("time") == "{time}"
  {
  }

  function ReplyQuote(sender: string, text: string): string {
    if sender == "" then ""
    else
      var preview := if |text| > 80 then text[..77] + "..." else text;
      "> **In reply to " + sender + ":**\n> " + preview + "\n\n"
  }

  /** The caption a consumer receives. */
  function Formatted(caption: string, sender: string, sourceId: string, replyToSender: string, replyToCaption: string,
                     captionTemplate: string, time: string): string {
    var text := if captionTemplate == "" then caption else RunPasses(captionTemplate, CaptionPasses(caption, sender, sourceId, time));
    Trim(ReplyQuote(replyToSender, replyToCaption) + text)
  }

  method ApplyFormatting(caption: string, sender: string, sourceId: string, replyToSender: string, replyToCaption: string,
                         captionTemplate: string, time: string)
    returns (formatted: string)
    ensures formatted == Formatted(caption, sender, sourceId, replyToSender, replyToCaption, captionTemplate, time)
  {
    var text := caption;
    if captionTemplate != "" {
      var tpl := captionTemplate;
      tpl := ReplaceAll(tpl, "{caption}", caption);
      tpl := ReplaceAll(tpl, "{sender}", sender);
      tpl := ReplaceAll(tpl, "{source_chat}", sourceId);
      tpl := ReplaceAll(tpl, "{time}", time);
      text := tpl;
      FourPasses(captionTemplate, caption, sender, sourceId, time);
    }
    if replyToSender != "" {
      var replyPreview := replyToCaption;
      if |replyPreview| > 80 {
        replyPreview := replyPreview[..77] + "...";
      }
      var blockquote := "> **In reply to " + replyToSender + ":**\n> " + replyPreview + "\n\n";
      text := blockquote + text;
    } else {
      assert "" + text == text;
    }
    formatted := Trim(text);
  }
}
