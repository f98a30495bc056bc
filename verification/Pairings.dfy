/** Pairings with their rules, secrets and blocked words; JSON export and import of them. */
module Pairings {
  import opened BlockedWords
  import opened Models
  import opened Text

  datatype Pairing = Pairing(config: RuleConfig, secret: string)

  /** The tables pairings and blocked_words. */
  datatype PairingTables = PairingTables(rows: map<Route, Pairing>, words: set<(Route, string)>)

  /** All the tables say about one route. */
  datatype View = View(pairing: Option<Pairing>, words: set<string>)

  function At(t: PairingTables, r: Route): View {
    View(if r in t.rows then Some(t.rows[r]) else None, WordsOf(t.words, r))
  }

  /** Keys are trimmed and complete, words normalised and not blank. */
  predicate WellFormed(t: PairingTables) {
    && (forall r | r in t.rows :: Clean(r))
    && (forall w | w in t.words :: Normal(w.1) && w.1 != "")
  }

  lemma SameViewsSameTables(s: PairingTables, t: PairingTables)
    requires forall r :: At(s, r) == At(t, r)
    ensures s == t
  {
    assert s.rows.Keys == t.rows.Keys by {
      forall r ensures r in s.rows <==> r in t.rows {
        assert At(s, r) == At(t, r);
      }
    }
    assert s.rows == t.rows by {
      forall r | r in s.rows ensures s.rows[r] == t.rows[r] {
        assert At(s, r) == At(t, r);
      }
    }
    forall w ensures w in s.words <==> w in t.words {
      assert At(s, w.0) == At(t, w.0);
      assert w in s.words <==> w.1 in WordsOf(s.words, w.0);
      assert w in t.words <==> w.1 in WordsOf(t.words, w.0);
    }
  }

  // ---- single operations ----

  function Link(t: PairingTables, r: Route, secret: string): PairingTables {
    t.(rows := t.rows[r := Pairing(if r in t.rows then t.rows[r].config else ZERO_CONFIG, secret)])
  }

  /** Linking keeps the rules of an existing pairing and changes only its secret; a new one starts without rules. Words and
      other routes stay as they are. */
  lemma LinkChangesOnlyTheSecret(t: PairingTables, r: Route, secret: string, other: Route)
    ensures At(Link(t, r, secret), other).words == At(t, other).words
    ensures other != r ==> At(Link(t, r, secret), other).pairing == At(t, other).pairing
    ensures At(Link(t, r, secret), r).pairing == match At(t, r).pairing
                                                 case Some(p) => Some(p.(secret := secret))
                                                 case None => Some(Pairing(ZERO_CONFIG, secret))
  {
    hide WordsOf;
  }

  function SetConfig(t: PairingTables, r: Route, config: RuleConfig): PairingTables {
    if r in t.rows then t.(rows := t.rows[r := t.rows[r].(config := config)]) else t
  }

  function Clear(t: PairingTables, r: Route): PairingTables {
    t.(words := set w | w in t.words && w.0 != r)
  }

  function AddWord(t: PairingTables, r: Route, word: string): PairingTables {
    if Normalize(word) == "" then t else t.(words := t.words + {(r, Normalize(word))})
  }

  // ---- import as a function of the tables ----

  datatype Export = Export(route: Route, config: RuleConfig, blockedWords: seq<string>, secret: string)

  /** Adds words one by one and stops at the first blank one. */
  function AddWords(t: PairingTables, r: Route, words: seq<string>): PairingTables
    decreases |words|
  {
    if words == [] || Normalize(words[0]) == "" then t else AddWords(AddWord(t, r, words[0]), r, words[1..])
  }

  function Target(item: Export): Route {
    TrimRoute(item.route)
  }

  function NewSecret(t: PairingTables, item: Export, includeSecrets: bool): string {
    if includeSecrets then Trim(item.secret)
    else if Target(item) in t.rows then t.rows[Target(item)].secret
    else ""
  }

  function ImportItem(t: PairingTables, item: Export, includeSecrets: bool, replaceBlocked: bool): PairingTables {
    var r := Target(item);
    if HasBlank(r) then t
    else
      var linked := SetConfig(Link(t, r, NewSecret(t, item, includeSecrets)), r, item.config);
      if replaceBlocked then AddWords(Clear(linked, r), r, item.blockedWords) else linked
  }

  predicate ItemOk(item: Export, replaceBlocked: bool) {
    && !HasBlank(Target(item))
    && (replaceBlocked ==> forall i | 0 <= i < |item.blockedWords| :: Normalize(item.blockedWords[i]) != "")
  }

  /** Items are applied in order; the first bad one stops the import where it stands. */
  function Import(t: PairingTables, items: seq<Export>, includeSecrets: bool, replaceBlocked: bool): PairingTables
    decreases |items|
  {
    if items == [] then t
    else
      var next := ImportItem(t, items[0], includeSecrets, replaceBlocked);
      if ItemOk(items[0], replaceBlocked) then Import(next, items[1..], includeSecrets, replaceBlocked) else next
  }

  function Applied(items: seq<Export>, replaceBlocked: bool): (n: nat)
    ensures n <= |items|
    decreases |items|
  {
    if items == [] || !ItemOk(items[0], replaceBlocked) then 0 else 1 + Applied(items[1..], replaceBlocked)
  }

  lemma {:induction false} FirstBad(items: seq<Export>, replaceBlocked: bool)
    ensures var n := Applied(items, replaceBlocked);
            && (forall i | 0 <= i < n :: ItemOk(items[i], replaceBlocked))
            && (n < |items| ==> !ItemOk(items[n], replaceBlocked))
    decreases |items|
  {
    hide ItemOk;
    if items != [] && ItemOk(items[0], replaceBlocked) {
      FirstBad(items[1..], replaceBlocked);
      forall i | 0 <= i < Applied(items, replaceBlocked) ensures ItemOk(items[i], replaceBlocked) {
        if i > 0 { assert items[i] == items[1..][i - 1]; }
      }
    }
  }

  lemma ItemOkIff(item: Export, replaceBlocked: bool)
    ensures ItemOk(item, replaceBlocked)
       <==> && Trim(item.route.sourcePlatform) != "" && Trim(item.route.sourceId) != ""
            && Trim(item.route.targetPlatform) != "" && Trim(item.route.targetId) != ""
            && (replaceBlocked ==> forall i | 0 <= i < |item.blockedWords| :: Trim(item.blockedWords[i]) != "")
  {
    assert forall w :: |Lower(w)| == |w|;
    hide Trim, Lower;
  }

  /** The import stops at the first item with a blank part of its route or, when words are replaced, a blank word, and only
      there. */
  lemma AppliedIsFirstBad(items: seq<Export>, replaceBlocked: bool, i: nat)
    requires i < |items| && i <= Applied(items, replaceBlocked)
    ensures var route, words := items[i].route, items[i].blockedWords;
            (i < Applied(items, replaceBlocked)
             <==> && Trim(route.sourcePlatform) != "" && Trim(route.sourceId) != ""
                  && Trim(route.targetPlatform) != "" && Trim(route.targetId) != ""
                  && (replaceBlocked ==> forall j | 0 <= j < |words| :: Trim(words[j]) != ""))
  {
    hide *;
    FirstBad(items, replaceBlocked);
    ItemOkIff(items[i], replaceBlocked);
  }

  lemma ImportStep(t: PairingTables, items: seq<Export>, n: nat, includeSecrets: bool, replaceBlocked: bool)
    requires n < |items|
    ensures Import(t, items[n..], includeSecrets, replaceBlocked)
         == var next := ImportItem(t, items[n], includeSecrets, replaceBlocked);
            if ItemOk(items[n], replaceBlocked) then Import(next, items[n + 1..], includeSecrets, replaceBlocked) else next
    ensures Applied(items[n..], replaceBlocked)
         == if ItemOk(items[n], replaceBlocked) then 1 + Applied(items[n + 1..], replaceBlocked) else 0
  {
    hide ItemOk, ImportItem;
    assert items[n..][1..] == items[n + 1..];
  }

  function Routes(items: seq<Export>): set<Route> {
    set i | 0 <= i < |items| :: items[i].route
  }

  lemma RoutesStep(items: seq<Export>, item: Export)
    ensures Routes(items + [item]) == Routes(items) + {item.route}
  {
    var more := items + [item];
    assert more[|items|] == item;
    forall r | r in Routes(items) ensures r in Routes(more) {
      var i :| 0 <= i < |items| && items[i].route == r;
      assert more[i].route == r;
    }
  }

  /** A list of exported pairings, and the routes still to come. */
  predicate IsPage(t: PairingTables, items: seq<Export>, rest: set<Route>, includeSecrets: bool) {
    && rest <= t.rows.Keys && |items| + |rest| == |t.rows|
    && (forall i, j | 0 <= i < j < |items| :: items[i].route != items[j].route)
    && (forall i | 0 <= i < |items| :: Faithful(t, items[i], includeSecrets))
    && Routes(items) == t.rows.Keys - rest
  }

  lemma PageStarts(t: PairingTables, includeSecrets: bool)
    ensures IsPage(t, [], t.rows.Keys, includeSecrets)
  {
  }

  lemma PageRest(t: PairingTables, items: seq<Export>, rest: set<Route>, includeSecrets: bool)
    requires IsPage(t, items, rest, includeSecrets)
    ensures rest <= t.rows.Keys
  {
  }

  lemma PageGrows(t: PairingTables, items: seq<Export>, rest: set<Route>, item: Export, includeSecrets: bool)
    requires IsPage(t, items, rest, includeSecrets) && item.route in rest && Faithful(t, item, includeSecrets)
    ensures IsPage(t, items + [item], rest - {item.route}, includeSecrets)
  {
    hide Faithful;
    RoutesStep(items, item);
    assert forall i | 0 <= i < |items| :: items[i].route in Routes(items);
    hide Routes;
  }

  // ---- the store ----

  class PairingStore {
    var rows: map<Route, Pairing>
    var words: set<(Route, string)>

    function State(): PairingTables
      reads this
    {
      PairingTables(rows, words)
    }

    constructor ()
      ensures State() == PairingTables(map[], {}) && WellFormed(State())
    {
      rows, words := map[], {};
    }

    method LinkChannel(route: Route, secret: string) returns (ok: bool)
      modifies this
      ensures ok == !HasBlank(TrimRoute(route))
      ensures State() == if ok then Link(old(State()), TrimRoute(route), secret) else old(State())
      ensures words == old(words)
      ensures ok ==>
                var r := TrimRoute(route);
                && r in rows && rows[r].secret == secret && rows - {r} == old(rows) - {r}
                && rows[r].config == (if r in old(rows) then old(rows)[r].config else ZERO_CONFIG)
      ensures old(WellFormed(State())) ==> WellFormed(State())
    {
      var r := TrimRoute(route);
      if HasBlank(r) {
        return false;
      }
      var config := if r in rows then rows[r].config else ZERO_CONFIG;
      rows := rows[r := Pairing(config, secret)];
      return true;
    }

    /** The words of the route stay behind. */
    method UnlinkChannel(route: Route) returns (removed: bool)
      modifies this
      ensures removed == (route in old(rows))
      ensures rows == old(rows) - {route} && words == old(words)
      ensures old(WellFormed(State())) ==> WellFormed(State())
    {
      removed := route in rows;
      rows := rows - {route};
    }

    method UpdateRuleConfig(route: Route, config: RuleConfig)
      modifies this
      ensures State() == SetConfig(old(State()), route, config)
      ensures words == old(words) && rows.Keys == old(rows).Keys && rows - {route} == old(rows) - {route}
      ensures route in rows ==> rows[route].config == config && rows[route].secret == old(rows)[route].secret
      ensures old(WellFormed(State())) ==> WellFormed(State())
    {
      if route in rows {
        rows := rows[route := rows[route].(config := config)];
      }
    }

    method AddBlockedWord(route: Route, word: string) returns (ok: bool)
      modifies this
      ensures ok == (Normalize(word) != "")
      ensures State() == AddWord(old(State()), route, word)
      ensures rows == old(rows) && words == old(words) + if ok then {(route, Normalize(word))} else {}
      ensures old(WellFormed(State())) ==> WellFormed(State())
    {
      var normalized := Normalize(word);
      if normalized == "" {
        return false;
      }
      words := words + {(route, normalized)};
      return true;
    }

    /** What AddBlockedWord put there, in any spelling, RemoveBlockedWord takes away. */
    method RemoveBlockedWord(route: Route, word: string) returns (ok: bool, removed: bool)
      modifies this
      ensures ok == (Normalize(word) != "")
      ensures removed == (ok && (route, Normalize(word)) in old(words))
      ensures rows == old(rows)
      ensures words == if ok then old(words) - {(route, Normalize(word))} else old(words)
      ensures old(WellFormed(State())) ==> WellFormed(State())
    {
      var normalized := Normalize(word);
      if normalized == "" {
        return false, false;
      }
      removed := (route, normalized) in words;
      words := words - {(route, normalized)};
      return true, removed;
    }

    method ClearBlockedWords(route: Route)
      modifies this
      ensures State() == Clear(old(State()), route)
      ensures rows == old(rows) && forall w :: w in words <==> w in old(words) && w.0 != route
      ensures old(WellFormed(State())) ==> WellFormed(State())
    {
      words := set w | w in words && w.0 != route;
    }

    /** Every word of the route once; their order is left open. */
    method GetBlockedWords(route: Route) returns (list: seq<string>)
      ensures Distinct(list) && Elements(list) == WordsOf(words, route)
    {
      list := [];
      var rest := WordsOf(words, route);
      while rest != {}
        invariant Distinct(list) && Elements(list) !! rest
        invariant Elements(list) + rest == WordsOf(words, route)
        decreases rest
      {
        var w :| w in rest;
        ElementsStep(list, w);
        list := list + [w];
        rest := rest - {w};
      }
    }

    method ExportOne(r: Route, includeSecrets: bool) returns (item: Export)
      requires r in rows
      ensures item.route == r && Faithful(State(), item, includeSecrets)
    {
      var list := GetBlockedWords(r);
      var secret := "";
      if includeSecrets {
        secret := rows[r].secret;
      }
      return Export(r, rows[r].config, list, secret);
    }

    /** Up to the page limit, each pairing once, with everything but, on demand, its secret. */
    method ExportPairings(limit: int, includeSecrets: bool) returns (items: seq<Export>)
      ensures |items| == if |rows| <= PageLimit(limit) then |rows| else PageLimit(limit)
      ensures forall i, j | 0 <= i < j < |items| :: items[i].route != items[j].route
      ensures forall i | 0 <= i < |items| :: Faithful(State(), items[i], includeSecrets)
      ensures Routes(items) <= rows.Keys && (|rows| <= PageLimit(limit) ==> Routes(items) == rows.Keys)
    {
      items := [];
      var rest := rows.Keys;
      PageStarts(State(), includeSecrets);
      while rest != {} && |items| < PageLimit(limit)
        invariant IsPage(State(), items, rest, includeSecrets) && |items| <= PageLimit(limit)
        decreases rest
      {
        hide IsPage, Faithful;
        var r :| r in rest;
        PageRest(State(), items, rest, includeSecrets);
        var item := ExportOne(r, includeSecrets);
        PageGrows(State(), items, rest, item, includeSecrets);
        items := items + [item];
        rest := rest - {r};
      }
    }

    method ImportPairings(items: seq<Export>, includeSecrets: bool, replaceBlocked: bool) returns (applied: nat, ok: bool)
      modifies this
      ensures State() == Import(old(State()), items, includeSecrets, replaceBlocked)
      ensures applied == Applied(items, replaceBlocked)
      ensures ok == (items != [] && applied == |items|)
    {
      if items == [] {
        return 0, false;
      }
      applied := 0;
      while applied < |items|
        invariant applied <= |items|
        invariant Import(old(State()), items, includeSecrets, replaceBlocked)
               == Import(State(), items[applied..], includeSecrets, replaceBlocked)
        invariant Applied(items, replaceBlocked) == applied + Applied(items[applied..], replaceBlocked)
      {
        hide Import, ImportItem, ItemOk, Applied;
        ImportStep(State(), items, applied, includeSecrets, replaceBlocked);
        var good := ImportOne(items[applied], includeSecrets, replaceBlocked);
        if !good {
          return applied, false;
        }
        applied := applied + 1;
      }
      return applied, true;
    }

    method ImportOne(item: Export, includeSecrets: bool, replaceBlocked: bool) returns (ok: bool)
      modifies this
      ensures State() == ImportItem(old(State()), item, includeSecrets, replaceBlocked)
      ensures ok == ItemOk(item, replaceBlocked)
    {
      var r := TrimRoute(item.route);
      if HasBlank(r) {
        return false;
      }
      var secret := "";
      if includeSecrets {
        secret := Trim(item.secret);
      } else if r in rows {
        secret := rows[r].secret;
      }
      var linked := LinkChannel(r, secret);
      UpdateRuleConfig(r, item.config);
      if replaceBlocked {
        ok := ReplaceBlockedWords(r, item.blockedWords);
        return ok;
      }
      return true;
    }

    method ReplaceBlockedWords(r: Route, list: seq<string>) returns (ok: bool)
      modifies this
      ensures State() == AddWords(Clear(old(State()), r), r, list)
      ensures ok == forall i | 0 <= i < |list| :: Normalize(list[i]) != ""
    {
      ClearBlockedWords(r);
      for i := 0 to |list|
        invariant AddWords(Clear(old(State()), r), r, list) == AddWords(State(), r, list[i..])
        invariant forall k | 0 <= k < i :: Normalize(list[k]) != ""
      {
        var added := AddBlockedWord(r, list[i]);
        assert list[i..][1..] == list[i + 1..];
        if !added {
          return false;
        }
      }
      return true;
    }
  }

  function PageLimit(limit: int): (n: nat)
    ensures 0 < n <= 500
    ensures 0 < limit <= 500 ==> n == limit
    ensures limit > 500 ==> n == 500
    ensures limit <= 0 ==> n == 100
  {
    if limit <= 0 then 100 else if limit > 500 then 500 else limit
  }

  /** An exported item says what the tables say about its route. */
  predicate Faithful(t: PairingTables, item: Export, includeSecrets: bool) {
    && item.route in t.rows
    && item.config == t.rows[item.route].config
    && Elements(item.blockedWords) == WordsOf(t.words, item.route)
    && item.secret == if includeSecrets then t.rows[item.route].secret else ""
  }
}
