/** What a JSON export followed by an import restores, and what an import leaves alone. */
module PairingTransfer {
  import opened BlockedWords
  import opened Models
  import opened Pairings
  import opened Text

  /** The words stored by AddWords: all up to the first blank one, normalised. */
  function Stored(words: seq<string>): set<string>
    decreases |words|
  {
    if words == [] || Normalize(words[0]) == "" then {} else {Normalize(words[0])} + Stored(words[1..])
  }

  lemma {:induction false} AddWordsAt(t: PairingTables, r: Route, words: seq<string>, q: Route)
    ensures AddWords(t, r, words).rows == t.rows
    ensures WordsOf(AddWords(t, r, words).words, q) == WordsOf(t.words, q) + if q == r then Stored(words) else {}
    decreases |words|
  {
    if words != [] && Normalize(words[0]) != "" {
      var next := AddWord(t, r, words[0]);
      AddWordsAt(next, r, words[1..], q);
      assert WordsOf(next.words, q) == WordsOf(t.words, q) + if q == r then {Normalize(words[0])} else {} by {
        assert (r, Normalize(words[0])) in next.words;
      }
    }
  }

  /** The part of a route's entry that an import may keep. */
  function KeptSecret(v: View, includeSecrets: bool): string {
    if includeSecrets || v.pairing.None? then "" else v.pairing.value.secret
  }

  function KeptWords(v: View, replaceBlocked: bool): set<string> {
    if replaceBlocked then {} else v.words
  }

  /** What one item makes of its own route's entry. */
  function ItemView(item: Export, v: View, includeSecrets: bool, replaceBlocked: bool): View {
    var secret := if includeSecrets then Trim(item.secret) else KeptSecret(v, includeSecrets);
    View(Some(Pairing(item.config, secret)), if replaceBlocked then Stored(item.blockedWords) else v.words)
  }

  lemma ImportItemAt(t: PairingTables, item: Export, includeSecrets: bool, replaceBlocked: bool, q: Route)
    ensures At(ImportItem(t, item, includeSecrets, replaceBlocked), q)
         == if q == Target(item) && !HasBlank(q) then ItemView(item, At(t, q), includeSecrets, replaceBlocked) else At(t, q)
  {
    hide Trim, AddWords, Stored, WordsOf, Clear;
    var r := Target(item);
    if !HasBlank(r) {
      var linked := SetConfig(Link(t, r, NewSecret(t, item, includeSecrets)), r, item.config);
      assert linked.words == t.words;
      if replaceBlocked {
        AddWordsAt(Clear(linked, r), r, item.blockedWords, q);
        ClearAt(linked, r, q);
      }
    }
  }

  lemma ClearAt(t: PairingTables, r: Route, q: Route)
    ensures Clear(t, r).rows == t.rows
    ensures WordsOf(Clear(t, r).words, q) == if q == r then {} else WordsOf(t.words, q)
  {
  }

  /** What a whole import makes of one route's entry. */
  function ImportView(items: seq<Export>, v: View, includeSecrets: bool, replaceBlocked: bool, q: Route): View
    decreases |items|
  {
    if items == [] then v
    else
      var next := if Target(items[0]) == q && !HasBlank(q) then ItemView(items[0], v, includeSecrets, replaceBlocked) else v;
      if ItemOk(items[0], replaceBlocked) then ImportView(items[1..], next, includeSecrets, replaceBlocked, q) else next
  }

  lemma {:induction false} ImportAt(t: PairingTables, items: seq<Export>, includeSecrets: bool, replaceBlocked: bool, q: Route)
    ensures At(Import(t, items, includeSecrets, replaceBlocked), q)
         == ImportView(items, At(t, q), includeSecrets, replaceBlocked, q)
    decreases |items|
  {
    if items != [] {
      ImportItemAt(t, items[0], includeSecrets, replaceBlocked, q);
      if ItemOk(items[0], replaceBlocked) {
        ImportAt(ImportItem(t, items[0], includeSecrets, replaceBlocked), items[1..], includeSecrets, replaceBlocked, q);
      }
    }
  }

  /** Some applied item, or the one that stopped the import, is for the route. */
  predicate Touches(items: seq<Export>, replaceBlocked: bool, q: Route) {
    !HasBlank(q) && exists i | 0 <= i < |items| && i <= Applied(items, replaceBlocked) :: Target(items[i]) == q
  }

  lemma TouchesTail(items: seq<Export>, replaceBlocked: bool, q: Route)
    requires items != [] && ItemOk(items[0], replaceBlocked)
    ensures Touches(items[1..], replaceBlocked, q) ==> Touches(items, replaceBlocked, q)
  {
    hide ItemOk, HasBlank, Target;
    if Touches(items[1..], replaceBlocked, q) {
      var i :| 0 <= i < |items[1..]| && i <= Applied(items[1..], replaceBlocked) && Target(items[1..][i]) == q;
      assert Target(items[i + 1]) == q;
    }
  }

  /** An import leaves every route alone that none of its items names. */
  lemma {:induction false} UntouchedView(items: seq<Export>, v: View, includeSecrets: bool, replaceBlocked: bool, q: Route)
    requires !Touches(items, replaceBlocked, q)
    ensures ImportView(items, v, includeSecrets, replaceBlocked, q) == v
    decreases |items|
  {
    if items != [] && ItemOk(items[0], replaceBlocked) {
      TouchesTail(items, replaceBlocked, q);
      UntouchedView(items[1..], v, includeSecrets, replaceBlocked, q);
    }
  }

  lemma UnlistedRoutesAreLeftAlone(t: PairingTables, items: seq<Export>, includeSecrets: bool, replaceBlocked: bool, q: Route)
    requires forall i | 0 <= i < |items| :: Target(items[i]) != q
    ensures At(Import(t, items, includeSecrets, replaceBlocked), q) == At(t, q)
  {
    ImportAt(t, items, includeSecrets, replaceBlocked, q);
    UntouchedView(items, At(t, q), includeSecrets, replaceBlocked, q);
  }

  /** The parts an import may keep are kept. */
  lemma {:induction false} ImportKeeps(items: seq<Export>, v: View, includeSecrets: bool, replaceBlocked: bool, q: Route)
    ensures var w := ImportView(items, v, includeSecrets, replaceBlocked, q);
            KeptSecret(w, includeSecrets) == KeptSecret(v, includeSecrets)
            && KeptWords(w, replaceBlocked) == KeptWords(v, replaceBlocked)
    decreases |items|
  {
    if items != [] {
      var next := if Target(items[0]) == q && !HasBlank(q) then ItemView(items[0], v, includeSecrets, replaceBlocked) else v;
      if ItemOk(items[0], replaceBlocked) {
        ImportKeeps(items[1..], next, includeSecrets, replaceBlocked, q);
      }
    }
  }

  /** Without secrets in the import no existing secret changes; without replacement no blocked word does. */
  lemma ImportNeverTouchesSecrets(t: PairingTables, items: seq<Export>, replaceBlocked: bool, q: Route)
    requires q in t.rows
    ensures var after := Import(t, items, false, replaceBlocked);
            q in after.rows && after.rows[q].secret == t.rows[q].secret
    ensures Import(t, items, false, false).words == t.words
  {
    ImportAt(t, items, false, replaceBlocked, q);
    ImportKeeps(items, At(t, q), false, replaceBlocked, q);
    ImportKeepsRows(items, At(t, q), false, replaceBlocked, q);
    var after := Import(t, items, false, false);
    forall w ensures w in after.words <==> w in t.words {
      ImportAt(t, items, false, false, w.0);
      ImportKeeps(items, At(t, w.0), false, false, w.0);
      assert w in after.words <==> w.1 in WordsOf(after.words, w.0);
      assert w in t.words <==> w.1 in WordsOf(t.words, w.0);
    }
  }

  /** The words of a list, without those that are blank in any spelling. */
  lemma {:induction false} StoredIsNormalized(words: seq<string>)
    requires forall i | 0 <= i < |words| :: Normalize(words[i]) != ""
    ensures Stored(words) == set w | w in words :: Normalize(w)
    decreases |words|
  {
    hide Normalize;
    if words != [] {
      StoredIsNormalized(words[1..]);
      assert words == [words[0]] + words[1..];
      assert forall w :: w in words <==> w == words[0] || w in words[1..];
    }
  }

  /** What the import leaves of the old entry is its secret, unless secrets are imported, and its words, unless they are
      replaced; the rest is from the last item of the route. */
  lemma {:induction false} LastItemDecides(items: seq<Export>, k: nat, v: View, includeSecrets: bool, replaceBlocked: bool, q: Route)
    requires k < |items| && Target(items[k]) == q && forall i | 0 <= i < |items| :: ItemOk(items[i], replaceBlocked)
    requires forall i | k < i < |items| :: Target(items[i]) != q
    ensures ImportView(items, v, includeSecrets, replaceBlocked, q) == ItemView(items[k], v, includeSecrets, replaceBlocked)
    decreases |items|
  {
    hide Target, ItemOk, Trim, Stored;
    assert ItemOk(items[0], replaceBlocked) && !HasBlank(q) by { GoodTarget(items[k], replaceBlocked); }
    var next := if Target(items[0]) == q then ItemView(items[0], v, includeSecrets, replaceBlocked) else v;
    var rest := items[1..];
    assert forall i | 0 <= i < |rest| :: rest[i] == items[i + 1];
    if k == 0 {
      assert !Touches(rest, replaceBlocked, q);
      UntouchedView(rest, next, includeSecrets, replaceBlocked, q);
    } else {
      assert Target(rest[k - 1]) == q;
      LastItemDecides(rest, k - 1, next, includeSecrets, replaceBlocked, q);
    }
  }

  lemma GoodTarget(item: Export, replaceBlocked: bool)
    requires ItemOk(item, replaceBlocked)
    ensures !HasBlank(Target(item))
  {
  }

  /** After an import without a bad item each listed route has the rules of its last item, that item's secret or the one it
      had, and exactly that item's words, normalised, or the ones it had. */
  lemma ImportedEntry(t: PairingTables, items: seq<Export>, k: nat, includeSecrets: bool, replaceBlocked: bool, q: Route)
    requires k < |items| && Target(items[k]) == q && forall i | 0 <= i < |items| :: ItemOk(items[i], replaceBlocked)
    requires forall i | k < i < |items| :: Target(items[i]) != q
    ensures var after := Import(t, items, includeSecrets, replaceBlocked);
            && q in after.rows && after.rows[q].config == items[k].config
            && after.rows[q].secret == (if includeSecrets then Trim(items[k].secret) else if q in t.rows then t.rows[q].secret else "")
            && WordsOf(after.words, q) == if replaceBlocked then set w | w in items[k].blockedWords :: Normalize(w) else WordsOf(t.words, q)
  {
    ImportAt(t, items, includeSecrets, replaceBlocked, q);
    LastItemDecides(items, k, At(t, q), includeSecrets, replaceBlocked, q);
    if replaceBlocked {
      assert ItemOk(items[k], true);
      StoredIsNormalized(items[k].blockedWords);
    }
    hide Import, ImportView, Trim, Normalize, Stored, WordsOf, ItemOk, Target;
  }

  lemma {:induction false} ImportKeepsRows(items: seq<Export>, v: View, includeSecrets: bool, replaceBlocked: bool, q: Route)
    requires v.pairing.Some?
    ensures ImportView(items, v, includeSecrets, replaceBlocked, q).pairing.Some?
    decreases |items|
  {
    if items != [] {
      var next := if Target(items[0]) == q && !HasBlank(q) then ItemView(items[0], v, includeSecrets, replaceBlocked) else v;
      if ItemOk(items[0], replaceBlocked) {
        ImportKeepsRows(items[1..], next, includeSecrets, replaceBlocked, q);
      }
    }
  }

  /** Entries that agree on what may be kept end up equal once some item names the route. */
  lemma {:induction false} TouchedViewsAgree(items: seq<Export>, v: View, w: View, includeSecrets: bool, replaceBlocked: bool, q: Route)
    requires KeptSecret(v, includeSecrets) == KeptSecret(w, includeSecrets)
    requires KeptWords(v, replaceBlocked) == KeptWords(w, replaceBlocked)
    requires Touches(items, replaceBlocked, q) || v == w
    ensures ImportView(items, v, includeSecrets, replaceBlocked, q) == ImportView(items, w, includeSecrets, replaceBlocked, q)
    decreases |items|
  {
    hide ItemOk, Trim, Stored;
    if items != [] {
      var here := Target(items[0]) == q && !HasBlank(q);
      var nextV := if here then ItemView(items[0], v, includeSecrets, replaceBlocked) else v;
      var nextW := if here then ItemView(items[0], w, includeSecrets, replaceBlocked) else w;
      if ItemOk(items[0], replaceBlocked) {
        if !here && v != w {
          var i :| 0 <= i < |items| && i <= Applied(items, replaceBlocked) && Target(items[i]) == q;
          assert Target(items[1..][i - 1]) == q;
        }
        TouchedViewsAgree(items[1..], nextV, nextW, includeSecrets, replaceBlocked, q);
      }
    }
  }

  /** Importing the same list again changes nothing, even when a bad item stopped it half way. */
  lemma ImportIsIdempotent(t: PairingTables, items: seq<Export>, includeSecrets: bool, replaceBlocked: bool)
    ensures var once := Import(t, items, includeSecrets, replaceBlocked);
            Import(once, items, includeSecrets, replaceBlocked) == once
  {
    var once := Import(t, items, includeSecrets, replaceBlocked);
    var twice := Import(once, items, includeSecrets, replaceBlocked);
    forall q ensures At(twice, q) == At(once, q) {
      var v, w := At(t, q), At(once, q);
      ImportAt(t, items, includeSecrets, replaceBlocked, q);
      ImportAt(once, items, includeSecrets, replaceBlocked, q);
      ImportKeeps(items, v, includeSecrets, replaceBlocked, q);
      if Touches(items, replaceBlocked, q) {
        TouchedViewsAgree(items, v, w, includeSecrets, replaceBlocked, q);
      } else {
        UntouchedView(items, v, includeSecrets, replaceBlocked, q);
        UntouchedView(items, w, includeSecrets, replaceBlocked, q);
      }
    }
    SameViewsSameTables(twice, once);
  }

  // ---- round trip ----

  /** A list that ExportPairings may return for these tables. */
  predicate IsExport(t: PairingTables, items: seq<Export>, includeSecrets: bool) {
    && (forall i, j | 0 <= i < j < |items| :: items[i].route != items[j].route)
    && (forall i | 0 <= i < |items| :: Faithful(t, items[i], includeSecrets))
  }

  lemma {:induction false} StoredIsElements(words: seq<string>)
    requires forall i | 0 <= i < |words| :: Normalize(words[i]) == words[i] != ""
    ensures Stored(words) == Elements(words)
    decreases |words|
  {
    hide Normalize;
    if words != [] {
      StoredIsElements(words[1..]);
      assert words == [words[0]] + words[1..];
      assert Elements(words) == {words[0]} + Elements(words[1..]);
    }
  }

  lemma ExportTail(t: PairingTables, items: seq<Export>, includeSecrets: bool)
    requires items != [] && IsExport(t, items, includeSecrets)
    ensures IsExport(t, items[1..], includeSecrets)
  {
    hide Faithful;
  }

  lemma ExportedItemIsGood(t: PairingTables, item: Export, includeSecrets: bool)
    requires WellFormed(t) && Faithful(t, item, includeSecrets)
    ensures Target(item) == item.route && ItemOk(item, true)
    ensures Stored(item.blockedWords) == WordsOf(t.words, item.route)
  {
    assert Clean(item.route);
    forall i | 0 <= i < |item.blockedWords| ensures Normalize(item.blockedWords[i]) == item.blockedWords[i] != "" {
      assert item.blockedWords[i] in Elements(item.blockedWords);
      assert (item.route, item.blockedWords[i]) in t.words;
      NormalizeFixesNormal(item.blockedWords[i]);
    }
    hide Normalize, Normal, Trim;
    StoredIsElements(item.blockedWords);
  }

  /** The entry an import of an exported list leaves for a listed route, whatever was there before. */
  function Restored(t: PairingTables, q: Route, includeSecrets: bool, v: View): View
    requires q in t.rows
  {
    var secret := if includeSecrets then Trim(t.rows[q].secret) else KeptSecret(v, false);
    View(Some(Pairing(t.rows[q].config, secret)), WordsOf(t.words, q))
  }

  lemma RestoredFirst(t: PairingTables, items: seq<Export>, includeSecrets: bool, v: View)
    requires WellFormed(t) && IsExport(t, items, includeSecrets) && items != []
    ensures ImportView(items, v, includeSecrets, true, items[0].route) == Restored(t, items[0].route, includeSecrets, v)
  {
    var q, rest := items[0].route, items[1..];
    ExportedItemIsGood(t, items[0], includeSecrets);
    var restored := ItemView(items[0], v, includeSecrets, true);
    assert restored == Restored(t, q, includeSecrets, v);
    forall i | 0 <= i < |rest| ensures Target(rest[i]) != q {
      ExportedItemIsGood(t, items[i + 1], includeSecrets);
    }
    UntouchedView(rest, restored, includeSecrets, true, q);
    assert Clean(q);
  }

  lemma SkipsOther(items: seq<Export>, v: View, includeSecrets: bool, replaceBlocked: bool, q: Route)
    requires items != [] && Target(items[0]) != q && ItemOk(items[0], replaceBlocked)
    ensures ImportView(items, v, includeSecrets, replaceBlocked, q) == ImportView(items[1..], v, includeSecrets, replaceBlocked, q)
  {
    hide Target, ItemOk;
  }

  lemma ListedFacts(t: PairingTables, items: seq<Export>, includeSecrets: bool, k: nat)
    requires IsExport(t, items, includeSecrets) && 0 < k < |items|
    ensures items[0].route != items[k].route && Faithful(t, items[0], includeSecrets) && items[k].route in t.rows
    ensures items[1..][k - 1] == items[k]
  {
    assert Faithful(t, items[k], includeSecrets);
  }

  lemma {:induction false} RestoredView(t: PairingTables, items: seq<Export>, includeSecrets: bool, k: nat, v: View, q: Route)
    requires WellFormed(t) && IsExport(t, items, includeSecrets) && k < |items| && items[k].route == q && q in t.rows
    ensures ImportView(items, v, includeSecrets, true, q) == Restored(t, q, includeSecrets, v)
    decreases |items|
  {
    hide WellFormed, Faithful, IsExport, Restored, ImportView, ItemOk, Target;
    if k == 0 {
      RestoredFirst(t, items, includeSecrets, v);
    } else {
      ExportTail(t, items, includeSecrets);
      ListedFacts(t, items, includeSecrets, k);
      ExportedItemIsGood(t, items[0], includeSecrets);
      SkipsOther(items, v, includeSecrets, true, q);
      RestoredView(t, items[1..], includeSecrets, k - 1, v, q);
    }
  }

  lemma {:induction false} AllApplied(t: PairingTables, items: seq<Export>, includeSecrets: bool)
    requires WellFormed(t) && IsExport(t, items, includeSecrets)
    ensures Applied(items, true) == |items|
    decreases |items|
  {
    if items != [] {
      ExportTail(t, items, includeSecrets);
      assert Faithful(t, items[0], includeSecrets);
      hide WellFormed, Faithful, IsExport, ItemOk, Target;
      ExportedItemIsGood(t, items[0], includeSecrets);
      AllApplied(t, items[1..], includeSecrets);
    }
  }

  /** The word rows of routes that have a pairing. */
  function PairedWords(t: PairingTables): set<(Route, string)> {
    set w | w in t.words && w.0 in t.rows
  }

  function TrimSecrets(rows: map<Route, Pairing>): map<Route, Pairing> {
    map r | r in rows :: rows[r].(secret := Trim(rows[r].secret))
  }

  /** A full export with secrets, imported into an empty database, restores every pairing, rule and word, and each
      secret up to surrounding blanks. */
  lemma RoundTripWithSecrets(t: PairingTables, items: seq<Export>)
    requires WellFormed(t) && IsExport(t, items, true)
    requires Routes(items) == t.rows.Keys
    ensures Import(PairingTables(map[], {}), items, true, true) == PairingTables(TrimSecrets(t.rows), PairedWords(t))
    ensures Applied(items, true) == |items|
  {
    AllApplied(t, items, true);
    hide WellFormed, IsExport, Import, Applied, WordsOf;
    var out := Import(PairingTables(map[], {}), items, true, true);
    var restored := PairingTables(TrimSecrets(t.rows), PairedWords(t));
    forall q ensures At(out, q) == At(restored, q) {
      if q in t.rows {
        var k :| 0 <= k < |items| && items[k].route == q;
        RoundTripListed(t, items, k);
      } else {
        NotListed(t, items, true, q);
        UnlistedRoutesAreLeftAlone(PairingTables(map[], {}), items, true, true, q);
        EmptyWords(q);
        assert At(restored, q) == View(None, {}) by { NoPairedWords(t, q); }
      }
    }
    SameViewsSameTables(out, restored);
  }

  lemma NoPairedWords(t: PairingTables, q: Route)
    requires q !in t.rows
    ensures WordsOf(PairedWords(t), q) == {}
  {
  }

  lemma EmptyWords(q: Route)
    ensures WordsOf({}, q) == {}
  {
  }

  lemma RoundTripListed(t: PairingTables, items: seq<Export>, k: nat)
    requires WellFormed(t) && IsExport(t, items, true) && k < |items|
    ensures At(Import(PairingTables(map[], {}), items, true, true), items[k].route)
         == At(PairingTables(TrimSecrets(t.rows), PairedWords(t)), items[k].route)
  {
    var empty, q := PairingTables(map[], {}), items[k].route;
    assert Faithful(t, items[k], true);
    PairedEntry(t, q, At(empty, q));
    hide WellFormed, IsExport, Import, ImportView, Faithful, Restored, At;
    ImportAt(empty, items, true, true, q);
    RestoredView(t, items, true, k, At(empty, q), q);
  }

  lemma PairedEntry(t: PairingTables, q: Route, v: View)
    requires q in t.rows
    ensures At(PairingTables(TrimSecrets(t.rows), PairedWords(t)), q) == Restored(t, q, true, v)
  {
    hide Trim;
    assert WordsOf(PairedWords(t), q) == WordsOf(t.words, q);
  }

  lemma NotListed(t: PairingTables, items: seq<Export>, includeSecrets: bool, q: Route)
    requires WellFormed(t) && IsExport(t, items, includeSecrets) && q !in t.rows
    ensures forall i | 0 <= i < |items| :: Target(items[i]) != q
  {
    forall i | 0 <= i < |items| ensures Target(items[i]) != q {
      ExportedItemIsGood(t, items[i], includeSecrets);
    }
  }

  /** An export without secrets, imported back into the same database, changes nothing at all. */
  lemma ReimportChangesNothing(t: PairingTables, items: seq<Export>)
    requires WellFormed(t) && IsExport(t, items, false)
    ensures Import(t, items, false, true) == t
  {
    var out := Import(t, items, false, true);
    forall q ensures At(out, q) == At(t, q) {
      if k :| 0 <= k < |items| && items[k].route == q {
        ReimportListed(t, items, k);
      } else {
        forall i | 0 <= i < |items| ensures Target(items[i]) != q {
          ExportedItemIsGood(t, items[i], false);
        }
        UnlistedRoutesAreLeftAlone(t, items, false, true, q);
      }
    }
    SameViewsSameTables(out, t);
  }

  lemma ReimportListed(t: PairingTables, items: seq<Export>, k: nat)
    requires WellFormed(t) && IsExport(t, items, false) && k < |items|
    ensures At(Import(t, items, false, true), items[k].route) == At(t, items[k].route)
  {
    var q := items[k].route;
    assert Faithful(t, items[k], false);
    ImportAt(t, items, false, true, q);
    RestoredView(t, items, false, k, At(t, q), q);
  }

  lemma {:induction false} AddWordsKeepsWellFormed(t: PairingTables, r: Route, words: seq<string>)
    requires WellFormed(t)
    ensures WellFormed(AddWords(t, r, words))
    decreases |words|
  {
    if words != [] && Normalize(words[0]) != "" {
      AddWordsKeepsWellFormed(AddWord(t, r, words[0]), r, words[1..]);
    }
  }

  /** Whatever list is imported, keys stay trimmed and complete and words normalised. */
  lemma {:induction false} ImportKeepsWellFormed(t: PairingTables, items: seq<Export>, includeSecrets: bool, replaceBlocked: bool)
    requires WellFormed(t)
    ensures WellFormed(Import(t, items, includeSecrets, replaceBlocked))
    decreases |items|
  {
    hide Trim, AddWords, WordsOf;
    if items != [] {
      var r := Target(items[0]);
      var next := ImportItem(t, items[0], includeSecrets, replaceBlocked);
      if !HasBlank(r) {
        var linked := SetConfig(Link(t, r, NewSecret(t, items[0], includeSecrets)), r, items[0].config);
        AddWordsKeepsWellFormed(Clear(linked, r), r, items[0].blockedWords);
      }
      if ItemOk(items[0], replaceBlocked) {
        ImportKeepsWellFormed(next, items[1..], includeSecrets, replaceBlocked);
      }
    }
  }
}
