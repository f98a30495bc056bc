/** Counting opening braces: passes in sequence never leave more than one substitution, and fewer when one completes the
    placeholder of a later one. */
module CaptionCounts {
  import opened Captions

  predicate Braceless(passes: seq<Pass>) {
    forall i | 0 <= i < |passes| :: '{' !in passes[i].value
  }

  predicate DistinctNames(passes: seq<Pass>) {
    forall i, j | 0 <= i < j < |passes| :: passes[i].name != passes[j].name
  }

  // ---- counting opening braces ----

  function Opens(s: string): nat
    decreases |s|
  {
    if s == [] then 0 else (if s[0] == '{' then 1 else 0) + Opens(s[1..])
  }

  lemma {:induction false} OpensAppend(a: string, b: string)
    ensures Opens(a + b) == Opens(a) + Opens(b)
    decreases |a|
  {
    if a == [] {
      assert a + b == b;
    } else {
      assert (a + b)[1..] == a[1..] + b;
      OpensAppend(a[1..], b);
    }
  }

  lemma {:induction false} NoOpens(s: string)
    requires '{' !in s
    ensures Opens(s) == 0
    decreases |s|
  {
    if s != [] { NoOpens(s[1..]); }
  }

  lemma OpensBehind(u: string, s: string)
    requires '{' !in u
    ensures Opens(u + s) == Opens(s)
  {
    OpensAppend(u, s);
    NoOpens(u);
  }

  /** Opening braces left when the first pass runs and the others are then substituted at once. */
  function Left(t: string, p: Pass, rest: seq<Pass>): nat {
    Opens(Substitute(ReplaceAll(t, Placeholder(p.name), p.value), rest))
  }

  /** Opening braces left when all passes are substituted at once. */
  function AtOnce(t: string, p: Pass, rest: seq<Pass>): nat {
    Opens(Substitute(t, [p] + rest))
  }

  lemma MatchFirst(t: string, p: Pass, rest: seq<Pass>)
    ensures Match(t, [p] + rest) == if Placeholder(p.name) <= t then 0 else 1 + Match(t, rest)
  {
    assert ([p] + rest)[1..] == rest;
  }

  lemma AtOwnPlaceholder(t: string, p: Pass, rest: seq<Pass>)
    requires Placeholder(p.name) <= t && '{' !in p.value
    ensures var more := t[|p.name| + 2..]; Left(t, p, rest) == Left(more, p, rest) && AtOnce(t, p, rest) == AtOnce(more, p, rest)
  {
    var more := t[|p.name| + 2..];
    MatchFirst(t, p, rest);
    SubstituteSteps(t, [p] + rest);
    var replaced := ReplaceAll(more, Placeholder(p.name), p.value);
    assert ReplaceAll(t, Placeholder(p.name), p.value) == p.value + replaced;
    hide ReplaceAll, Substitute, Match, Placeholder;
    SubstituteCopies(p.value, replaced, rest);
    OpensBehind(p.value, Substitute(replaced, rest));
    OpensBehind(p.value, Substitute(more, [p] + rest));
  }

  /** The placeholder of another pass is left for it. */
  lemma OtherPlaceholderStays(t: string, p: Pass, name: string)
    requires BraceFree(name) && Placeholder(name) <= t && !(Placeholder(p.name) <= t)
    ensures ReplaceAll(t, Placeholder(p.name), p.value)
         == Placeholder(name) + ReplaceAll(t[|name| + 2..], Placeholder(p.name), p.value)
  {
    AfterBrace(name, t);
    var more := t[|name| + 2..];
    ReplaceCopies(name + ['}'], more, p.name, p.value);
    assert ReplaceAll(t, Placeholder(p.name), p.value) == ['{'] + ReplaceAll(t[1..], Placeholder(p.name), p.value);
    hide ReplaceAll;
    PrependBrace(name, ReplaceAll(more, Placeholder(p.name), p.value));
  }

  lemma AtOnceAtOther(t: string, p: Pass, rest: seq<Pass>)
    requires !(Placeholder(p.name) <= t) && Match(t, rest) < |rest| && Braceless(rest)
    ensures AtOnce(t, p, rest) == AtOnce(t[|rest[Match(t, rest)].name| + 2..], p, rest)
  {
    var k := Match(t, rest);
    var q := rest[k];
    MatchFirst(t, p, rest);
    SubstituteSteps(t, [p] + rest);
    assert ([p] + rest)[1 + k] == q;
    hide Substitute, Match, Placeholder;
    OpensBehind(q.value, Substitute(t[|q.name| + 2..], [p] + rest));
  }

  /** A text that starts with the placeholder of a pass is substituted there. */
  lemma SubstituteAt(text: string, passes: seq<Pass>, k: nat)
    requires k < |passes| && Placeholder(passes[k].name) <= text && WellNamed(passes) && DistinctNames(passes)
    ensures Match(text, passes) == k
    ensures Substitute(text, passes) == passes[k].value + Substitute(text[|passes[k].name| + 2..], passes)
  {
    MatchFinds(text, passes, k);
    SubstituteSteps(text, passes);
  }

  lemma LeftAtOther(t: string, p: Pass, rest: seq<Pass>)
    requires !(Placeholder(p.name) <= t) && Match(t, rest) < |rest|
    requires WellNamed(rest) && DistinctNames(rest) && Braceless(rest)
    ensures Left(t, p, rest) == Left(t[|rest[Match(t, rest)].name| + 2..], p, rest)
  {
    var k := Match(t, rest);
    var q := rest[k];
    hide ReplaceAll, Substitute, Match, DistinctNames;
    OtherPlaceholderStays(t, p, q.name);
    var replaced := ReplaceAll(t[|q.name| + 2..], Placeholder(p.name), p.value);
    var text := Placeholder(q.name) + replaced;
    SubstituteAt(text, rest, k);
    hide Placeholder;
    assert text[|q.name| + 2..] == replaced;
    OpensBehind(q.value, Substitute(replaced, rest));
  }

  lemma AtOtherPlaceholder(t: string, p: Pass, rest: seq<Pass>)
    requires !(Placeholder(p.name) <= t) && Match(t, rest) < |rest|
    requires WellNamed(rest) && DistinctNames(rest) && Braceless(rest)
    ensures var more := t[|rest[Match(t, rest)].name| + 2..];
            Left(t, p, rest) == Left(more, p, rest) && AtOnce(t, p, rest) == AtOnce(more, p, rest)
  {
    hide Left, AtOnce, Match, Placeholder;
    LeftAtOther(t, p, rest);
    AtOnceAtOther(t, p, rest);
  }

  lemma MatchedBrace(x: string, rest: seq<Pass>, k: nat)
    requires k == Match(['{'] + x, rest) < |rest|
    ensures |rest[k].name| + 1 <= |x|
    ensures x == (rest[k].name + ['}']) + x[|rest[k].name| + 1..]
    ensures Substitute(['{'] + x, rest) == rest[k].value + Substitute(x[|rest[k].name| + 1..], rest)
  {
    var s, name := ['{'] + x, rest[k].name;
    SubstituteSteps(s, rest);
    AfterBrace(name, s);
    hide Substitute, Match, Placeholder;
    assert s[1..] == x && s[|name| + 2..] == x[|name| + 1..];
  }

  lemma BehindMatchedBrace(x: string, rest: seq<Pass>, k: nat)
    requires WellNamed(rest) && Braceless(rest) && k == Match(['{'] + x, rest) < |rest|
    ensures Opens(Substitute(['{'] + x, rest)) == Opens(Substitute(x, rest))
  {
    hide Substitute, Match;
    MatchedBrace(x, rest, k);
    var u, more := rest[k].name + ['}'], x[|rest[k].name| + 1..];
    assert '{' !in u && '{' !in rest[k].value;
    hide WellNamed, Braceless, BraceFree;
    SubstituteCopies(u, more, rest);
    OpensBehind(u, Substitute(more, rest));
    OpensBehind(rest[k].value, Substitute(more, rest));
  }

  lemma BehindOtherBrace(x: string, rest: seq<Pass>)
    requires Match(['{'] + x, rest) == |rest|
    ensures Opens(Substitute(['{'] + x, rest)) == Opens(Substitute(x, rest)) + 1
  {
    var s := ['{'] + x;
    assert s[1..] == x;
    SubstituteSteps(s, rest);
    hide Substitute, Match;
    OpensAppend(['{'], Substitute(x, rest));
    OneOpen('{');
  }

  /** Behind an opening brace a substitution leaves that brace more, and none more when a placeholder starts there. */
  lemma BehindBrace(x: string, rest: seq<Pass>)
    requires WellNamed(rest) && Braceless(rest)
    ensures Opens(Substitute(['{'] + x, rest)) == Opens(Substitute(x, rest)) + if Match(['{'] + x, rest) < |rest| then 0 else 1
  {
    hide Substitute, Match;
    if Match(['{'] + x, rest) < |rest| {
      BehindMatchedBrace(x, rest, Match(['{'] + x, rest));
    } else {
      BehindOtherBrace(x, rest);
    }
  }

  lemma AtOtherCharacter(t: string, p: Pass, rest: seq<Pass>)
    requires t != [] && !(Placeholder(p.name) <= t) && Match(t, rest) == |rest| && WellNamed(rest) && Braceless(rest)
    ensures t[0] != '{' ==> Left(t, p, rest) == Left(t[1..], p, rest) && AtOnce(t, p, rest) == AtOnce(t[1..], p, rest)
    ensures t[0] == '{' ==>
              var replaced := ['{'] + ReplaceAll(t[1..], Placeholder(p.name), p.value);
              && AtOnce(t, p, rest) == 1 + AtOnce(t[1..], p, rest)
              && Left(t, p, rest) == Left(t[1..], p, rest) + if Match(replaced, rest) < |rest| then 0 else 1
  {
    MatchFirst(t, p, rest);
    SubstituteSteps(t, [p] + rest);
    var replaced := ReplaceAll(t[1..], Placeholder(p.name), p.value);
    assert ReplaceAll(t, Placeholder(p.name), p.value) == [t[0]] + replaced;
    hide ReplaceAll, Substitute, Match, Placeholder;
    OpensAppend([t[0]], Substitute(t[1..], [p] + rest));
    OneOpen(t[0]);
    if t[0] == '{' {
      BehindBrace(replaced, rest);
    } else {
      SubstituteCopies([t[0]], replaced, rest);
      OpensBehind([t[0]], Substitute(replaced, rest));
    }
  }

  lemma OneOpen(c: char)
    ensures Opens([c]) == if c == '{' then 1 else 0
  {
    assert [c][1..] == [];
  }

  predicate Plain(p: Pass, rest: seq<Pass>) {
    && BraceFree(p.name) && '{' !in p.value
    && WellNamed(rest) && Braceless(rest) && DistinctNames(rest)
  }

  /** The scan's next step: how far it goes, and that taking the pass first gains nothing there. */
  lemma ScanStep(t: string, p: Pass, rest: seq<Pass>) returns (n: nat)
    requires t != [] && Plain(p, rest)
    ensures 0 < n <= |t| && Left(t, p, rest) + AtOnce(t[n..], p, rest) <= Left(t[n..], p, rest) + AtOnce(t, p, rest)
    ensures n == 1 || exists name :: BraceFree(name) && Placeholder(name) <= t && n == |name| + 2
  {
    hide Left, AtOnce, Placeholder, Match, BraceFree;
    if Placeholder(p.name) <= t {
      n := |p.name| + 2;
      AtOwnPlaceholder(t, p, rest);
    } else if Match(t, rest) < |rest| {
      n := |rest[Match(t, rest)].name| + 2;
      AtOtherPlaceholder(t, p, rest);
    } else {
      n := 1;
      AtOtherCharacter(t, p, rest);
    }
  }

  /** Taking one pass first never leaves more opening braces than one substitution. */
  lemma {:induction false} FirstPassCounts(t: string, p: Pass, rest: seq<Pass>)
    requires Plain(p, rest)
    ensures Left(t, p, rest) <= AtOnce(t, p, rest)
    decreases |t|
  {
    if t != [] {
      hide Left, AtOnce, Plain, Placeholder;
      var n := ScanStep(t, p, rest);
      FirstPassCounts(t[n..], p, rest);
    }
  }

  /** Nor do all passes in sequence. */
  lemma {:induction false} PassesCount(t: string, passes: seq<Pass>)
    requires WellNamed(passes) && Braceless(passes) && DistinctNames(passes)
    ensures Opens(RunPasses(t, passes)) <= Opens(Substitute(t, passes))
    decreases |passes|
  {
    if passes == [] {
      SubstituteNothing(t);
    } else {
      assert passes == [passes[0]] + passes[1..];
      FirstPassCounts(t, passes[0], passes[1..]);
      PassesCount(ReplaceAll(t, Placeholder(passes[0].name), passes[0].value), passes[1..]);
    }
  }

  // ---- an ambiguous template has values it goes wrong for ----

  /** Where an opening starts, no placeholder does. */
  lemma OpeningIsNoPlaceholder(t: string, name: string, m: nat, hole: string, other: string)
    requires m <= |name| && BraceFree(name) && BraceFree(other) && Opening(name, m, hole) <= t
    ensures !(Placeholder(other) <= t)
  {
    var w, ph := Opening(name, m, hole), Placeholder(other);
    var d := if |other| < m then |other| + 1 else m + 1;
    assert w[d] == if d <= m then name[d - 1] else '{';
    assert ph[d] == if d <= |other| then other[d - 1] else '}';
    assert d <= m ==> name[d - 1] in name;
    assert d <= |other| ==> other[d - 1] in other;
    assert t[d] == w[d] != ph[d];
  }

  /** An occurrence that does not start at the front lies behind any stretch whose later characters are no opening braces. */
  lemma {:induction false} OccursBehind(w: string, t: string, n: nat)
    requires w != [] && w[0] == '{' && Occurs(w, t) && 0 < n <= |t| && !(w <= t)
    requires forall i | 1 <= i < n :: t[i] != '{'
    ensures Occurs(w, t[n..])
    decreases n
  {
    if n > 1 {
      assert !(w <= t[1..]);
      assert forall i | 1 <= i < n - 1 :: t[1..][i] == t[i + 1];
      OccursBehind(w, t[1..], n - 1);
      assert t[1..][n - 1..] == t[n..];
    }
  }

  lemma OccursBehindPlaceholder(w: string, t: string, name: string)
    requires w != [] && w[0] == '{' && Occurs(w, t) && !(w <= t) && BraceFree(name) && Placeholder(name) <= t
    ensures Occurs(w, t[|name| + 2..])
  {
    var ph := Placeholder(name);
    forall i | 1 <= i < |name| + 2 ensures t[i] != '{' {
      assert t[i] == ph[i];
      if i <= |name| { assert ph[i] == name[i - 1] && name[i - 1] in name; }
    }
    OccursBehind(w, t, |name| + 2);
  }

  lemma {:induction false} OccursAfter(u: string, w: string, s: string)
    requires Occurs(w, s)
    ensures Occurs(w, u + s)
    decreases |u|
  {
    if u == [] {
      assert u + s == s;
    } else {
      assert (u + s)[1..] == u[1..] + s;
      OccursAfter(u[1..], w, s);
    }
  }

  lemma OpeningAppend(name: string, m: nat, hole: string, behind: string)
    requires m <= |name|
    ensures Opening(name, m, hole) <= ['{'] + (name[..m] + (Placeholder(hole) + behind))
  {
    assert ['{'] + (name[..m] + (Placeholder(hole) + behind)) == Opening(name, m, hole) + behind;
  }

  lemma CopiesBrace(t: string, p: Pass)
    requires t != [] && t[0] == '{' && !(Placeholder(p.name) <= t)
    ensures ReplaceAll(t, Placeholder(p.name), p.value) == ['{'] + ReplaceAll(t[1..], Placeholder(p.name), p.value)
  {
  }

  /** A pass for another name leaves an opening where it is. */
  lemma OpeningIsCopied(t: string, p: Pass, name: string, m: nat, hole: string)
    requires m <= |name| && BraceFree(name) && BraceFree(p.name) && BraceFree(hole) && p.name != hole
    requires Opening(name, m, hole) <= t
    ensures Opening(name, m, hole) <= ReplaceAll(t, Placeholder(p.name), p.value)
  {
    assert '{' !in name[..m];
    hide ReplaceAll, Placeholder, Opening, BraceFree;
    var more := t[m + 1..];
    OpeningIsNoPlaceholder(t, name, m, hole, p.name);
    OpeningParts(t, name, m, hole);
    CopiesBrace(t, p);
    ReplaceCopies(name[..m], more, p.name, p.value);
    NotThatPlaceholder(more, hole, p.name);
    OtherPlaceholderStays(more, p, hole);
    OpeningAppend(name, m, hole, ReplaceAll(more[|hole| + 2..], Placeholder(p.name), p.value));
  }

  lemma OpeningParts(t: string, name: string, m: nat, hole: string)
    requires m <= |name| && Opening(name, m, hole) <= t
    ensures t[1..] == name[..m] + t[m + 1..] && Placeholder(hole) <= t[m + 1..] && t[0] == '{'
  {
    var w := Opening(name, m, hole);
    assert t == w + t[|w|..];
    assert t[m + 1..] == Placeholder(hole) + t[|w|..];
  }

  lemma NotThatPlaceholder(s: string, name: string, other: string)
    requires BraceFree(name) && BraceFree(other) && name != other && Placeholder(name) <= s
    ensures !(Placeholder(other) <= s)
  {
    if Placeholder(other) <= s {
      assert name + ['}'] == Placeholder(name)[1..] <= s[1..] && other + ['}'] == Placeholder(other)[1..] <= s[1..];
      SameName(name, other, s[1..]);
    }
  }

  /** So it is still there for a later pass. */
  lemma {:induction false} OpeningSurvives(t: string, p: Pass, name: string, m: nat, hole: string)
    requires m <= |name| && BraceFree(name) && BraceFree(p.name) && BraceFree(hole) && p.name != hole
    requires Occurs(Opening(name, m, hole), t)
    ensures Occurs(Opening(name, m, hole), ReplaceAll(t, Placeholder(p.name), p.value))
    decreases |t|
  {
    var w := Opening(name, m, hole);
    if w <= t {
      OpeningIsCopied(t, p, name, m, hole);
    } else if Placeholder(p.name) <= t {
      OccursBehindPlaceholder(w, t, p.name);
      var more := t[|p.name| + 2..];
      OpeningSurvives(more, p, name, m, hole);
      OccursAfter(p.value, w, ReplaceAll(more, Placeholder(p.name), p.value));
    } else {
      OpeningSurvives(t[1..], p, name, m, hole);
      OccursAfter([t[0]], w, ReplaceAll(t[1..], Placeholder(p.name), p.value));
    }
  }

  /** The value that completes a name. */
  function Rest(name: string, m: nat): string
    requires m <= |name|
  {
    name[m..] + ['}']
  }

  lemma OpeningIsCompleted(t: string, p: Pass, name: string, m: nat)
    requires m <= |name| && BraceFree(name) && BraceFree(p.name) && p.value == Rest(name, m)
    requires Opening(name, m, p.name) <= t
    ensures Placeholder(name) <= ['{'] + ReplaceAll(t[1..], Placeholder(p.name), p.value)
  {
    OpeningParts(t, name, m, p.name);
    var more := t[m + 1..];
    ReplaceCopies(name[..m], more, p.name, p.value);
    var behind := ReplaceAll(more[|p.name| + 2..], Placeholder(p.name), p.value);
    assert ReplaceAll(more, Placeholder(p.name), p.value) == p.value + behind;
    hide ReplaceAll;
    assert name == name[..m] + name[m..];
    assert ['{'] + (name[..m] + (p.value + behind)) == Placeholder(name) + behind;
  }

  /** A pass that completes the placeholder of a later one leaves fewer opening braces than one substitution. */
  lemma {:induction false} CompletionCounts(t: string, p: Pass, rest: seq<Pass>, j: nat, m: nat)
    requires Plain(p, rest) && j < |rest| && m <= |rest[j].name| && p.value == Rest(rest[j].name, m)
    requires Occurs(Opening(rest[j].name, m, p.name), t)
    ensures Left(t, p, rest) < AtOnce(t, p, rest)
    decreases |t|
  {
    var w := Opening(rest[j].name, m, p.name);
    if w <= t {
      FrontCompletion(t, p, rest, j, m);
    } else {
      hide Left, AtOnce, Placeholder, Opening, Plain;
      var n := ScanStep(t, p, rest);
      if n > 1 {
        var name :| BraceFree(name) && Placeholder(name) <= t && n == |name| + 2;
        OccursBehindPlaceholder(w, t, name);
      }
      CompletionCounts(t[n..], p, rest, j, m);
    }
  }

  lemma FrontCompletion(t: string, p: Pass, rest: seq<Pass>, j: nat, m: nat)
    requires Plain(p, rest) && j < |rest| && m <= |rest[j].name| && p.value == Rest(rest[j].name, m)
    requires Opening(rest[j].name, m, p.name) <= t
    ensures Left(t, p, rest) < AtOnce(t, p, rest)
  {
    var name := rest[j].name;
    OpeningParts(t, name, m, p.name);
    OpeningIsNoPlaceholder(t, name, m, p.name, p.name);
    NoMatchAtOpening(t, rest, name, m, p.name);
    OpeningIsCompleted(t, p, name, m);
    MatchFinds(['{'] + ReplaceAll(t[1..], Placeholder(p.name), p.value), rest, j);
    hide Left, AtOnce, Placeholder, Match, Opening;
    AtOtherCharacter(t, p, rest);
    FirstPassCounts(t[1..], p, rest);
  }

  lemma {:induction false} NoMatchAtOpening(t: string, passes: seq<Pass>, name: string, m: nat, hole: string)
    requires m <= |name| && BraceFree(name) && WellNamed(passes) && Opening(name, m, hole) <= t
    ensures Match(t, passes) == |passes|
    decreases |passes|
  {
    hide Opening, Placeholder;
    if passes != [] {
      OpeningIsNoPlaceholder(t, name, m, hole, passes[0].name);
      NoMatchAtOpening(t, passes[1..], name, m, hole);
    }
  }

  /** When pass i completes the placeholder of the later pass j, the passes in sequence leave fewer opening braces. */
  lemma {:induction false} AmbiguityCounts(t: string, passes: seq<Pass>, i: nat, j: nat, m: nat)
    requires WellNamed(passes) && Braceless(passes) && DistinctNames(passes)
    requires i < j < |passes| && m <= |passes[j].name| && passes[i].value == Rest(passes[j].name, m)
    requires Occurs(Opening(passes[j].name, m, passes[i].name), t)
    ensures Opens(RunPasses(t, passes)) < Opens(Substitute(t, passes))
    decreases i
  {
    var p, rest := passes[0], passes[1..];
    assert passes == [p] + rest && rest[j - 1] == passes[j];
    var next := ReplaceAll(t, Placeholder(p.name), p.value);
    hide ReplaceAll, Substitute, Opening, Placeholder, Occurs;
    if i == 0 {
      CompletionCounts(t, p, rest, j - 1, m);
      PassesCount(next, rest);
    } else {
      assert rest[i - 1] == passes[i];
      OpeningSurvives(t, p, passes[j].name, m, passes[i].name);
      AmbiguityCounts(next, rest, i - 1, j - 1, m);
      FirstPassCounts(t, p, rest);
    }
  }
}
