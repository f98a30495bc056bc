/** Keyword rules: matching, the legacy comma list, and its migration into rows. */
module BlockedWords {
  import opened Models
  import opened Text

  function Normalize(word: string): (w: string)
    ensures Normal(w)
  {
    LowerKeepsTrimmed(Trim(word));
    LowerIsIdempotent(Trim(word));
    Lower(Trim(word))
  }

  /** The form in which words are stored. */
  predicate Normal(word: string) {
    Trimmed(word) && Lower(word) == word
  }

  lemma NormalizeFixesNormal(word: string)
    requires Normal(word)
    ensures Normalize(word) == word
  {
  }

  /** What a list of words blocks: a text whose lower case contains some word that is not blank. */
  predicate Blocks(words: seq<string>, text: string) {
    exists i | 0 <= i < |words| :: Normalize(words[i]) != "" && Contains(Lower(text), Normalize(words[i]))
  }

  /** A word is read without the blanks around it and in small letters. */
  lemma SpellingsNormalize(a: string, word: string, b: string)
    requires Blank(a) && Trimmed(word) && Blank(b)
    ensures Normalize(a + word + b) == Lower(word)
  {
    TrimExact(a, word, b);
  }

  /** The part of the text from one place to another is the word, in small letters. */
  predicate IsWordAt(text: string, from: int, to: int, word: string) {
    0 <= from <= to <= |text| && Lower(text[from..to]) == word
  }

  lemma ContainsIff(text: string, word: string)
    ensures Contains(Lower(text), word) <==> exists from, to :: IsWordAt(text, from, to, word)
  {
    if from :| 0 <= from <= |Lower(text)| && word <= Lower(text)[from..] {
      var to := from + |word|;
      assert Lower(text[from..to]) == Lower(text)[from..][..|word|];
      assert IsWordAt(text, from, to, word);
    }
    if from, to :| IsWordAt(text, from, to, word) {
      assert word == Lower(text)[from..to] == Lower(text)[from..][..to - from];
    }
  }

  /** A text is blocked exactly when some part of it is a word, both in small letters and the word not blank. */
  lemma BlocksIff(words: seq<string>, text: string)
    ensures Blocks(words, text)
       <==> exists i :: 0 <= i < |words| && Normalize(words[i]) != "" && exists from, to :: IsWordAt(text, from, to, Normalize(words[i]))
  {
    forall i | 0 <= i < |words|
      ensures Contains(Lower(text), Normalize(words[i])) <==> exists from, to :: IsWordAt(text, from, to, Normalize(words[i]))
    {
      ContainsIff(text, Normalize(words[i]));
    }
    hide Contains, IsWordAt, Normalize, Lower;
  }

  method ContainsBlockedWord(text: string, words: seq<string>) returns (found: bool)
    ensures found == Blocks(words, text)
  {
    var lowerText := Lower(text);
    for i := 0 to |words|
      invariant !Blocks(words[..i], text)
    {
      var trimmedWord := Lower(Trim(words[i]));
      assert words[..i + 1] == words[..i] + [words[i]];
      if trimmedWord == "" {
        continue;
      }
      if Contains(lowerText, trimmedWord) {
        return true;
      }
    }
    assert words[..|words|] == words;
    return false;
  }

  predicate Distinct(words: seq<string>) {
    forall i, j | 0 <= i < j < |words| :: words[i] != words[j]
  }

  /** The words the comma list stands for, as a set. */
  function LegacyWords(words: string): set<string> {
    WordsIn(Split(words, ','))
  }

  function WordsIn(parts: seq<string>): set<string> {
    set part | part in parts && Normalize(part) != "" :: Normalize(part)
  }

  lemma WordsInStep(parts: seq<string>, i: nat)
    requires i < |parts|
    ensures WordsIn(parts[..i + 1]) == WordsIn(parts[..i]) + if Normalize(parts[i]) == "" then {} else {Normalize(parts[i])}
  {
    assert parts[..i + 1] == parts[..i] + [parts[i]];
  }

  lemma ElementsStep(words: seq<string>, word: string)
    ensures Elements(words + [word]) == Elements(words) + {word}
  {
  }

  function Elements(words: seq<string>): set<string> {
    set word | word in words
  }

  /** splitBlockedWordsLegacy: each normalised word once, in order of first appearance. */
  method SplitBlockedWordsLegacy(words: string) returns (result: seq<string>)
    ensures Distinct(result) && Elements(result) == LegacyWords(words)
  {
    if Trim(words) == "" {
      BlankListHasNoWords(words);
      return [];
    }
    var parts := Split(words, ',');
    result := [];
    var seen: set<string> := {};
    for i := 0 to |parts|
      invariant Distinct(result) && seen == Elements(result)
      invariant seen == WordsIn(parts[..i])
    {
      WordsInStep(parts, i);
      var normalized := Normalize(parts[i]);
      if normalized == "" {
        continue;
      }
      if normalized in seen {
        continue;
      }
      seen := seen + {normalized};
      ElementsStep(result, normalized);
      result := result + [normalized];
    }
    assert parts[..|parts|] == parts;
  }

  lemma {:induction false} TrimBlank(s: string)
    ensures Trim(s) == "" <==> forall i | 0 <= i < |s| :: IsSpace(s[i])
  {
    TrimLeftBlank(s);
    var t := TrimLeft(s);
    if t != "" { TrimRightKeepsFirst(t); }
  }

  lemma {:induction false} TrimLeftBlank(s: string)
    ensures TrimLeft(s) == "" <==> forall i | 0 <= i < |s| :: IsSpace(s[i])
  {
    if s != "" && IsSpace(s[0]) {
      TrimLeftBlank(s[1..]);
      assert forall i | 0 <= i < |s[1..]| :: s[1..][i] == s[i + 1];
      assert forall i | 1 <= i < |s| :: s[i] == s[1..][i - 1];
    }
  }

  lemma {:induction false} TrimRightKeepsFirst(s: string)
    requires s != "" && !IsSpace(s[0])
    ensures TrimRight(s) != ""
  {
    if IsSpace(s[|s| - 1]) { TrimRightKeepsFirst(s[..|s| - 1]); }
  }

  lemma BlankListHasNoWords(words: string)
    requires Trim(words) == ""
    ensures LegacyWords(words) == {}
  {
    TrimBlank(words);
    assert ',' !in words;
    SplitWithoutSeparator(words, ',');
  }

  /** Only the set of stored words matters for matching, whatever order they are read back in. */
  lemma StoredWordsBlockTheSame(legacy: string, stored: seq<string>, text: string)
    requires Elements(stored) == LegacyWords(legacy)
    ensures Blocks(stored, text) == Blocks(Split(legacy, ','), text)
  {
    hide Lower, Contains, Normalize;
    var parts := Split(legacy, ',');
    if Blocks(stored, text) {
      var i :| 0 <= i < |stored| && Normalize(stored[i]) != "" && Contains(Lower(text), Normalize(stored[i]));
      assert stored[i] in Elements(stored);
      var part :| part in parts && Normalize(part) == stored[i];
      NormalizeFixesNormal(stored[i]);
      var k :| 0 <= k < |parts| && parts[k] == part;
    }
    if Blocks(parts, text) {
      var k :| 0 <= k < |parts| && Normalize(parts[k]) != "" && Contains(Lower(text), Normalize(parts[k]));
      var word := Normalize(parts[k]);
      assert word in LegacyWords(legacy);
      var i :| 0 <= i < |stored| && stored[i] == word;
      NormalizeFixesNormal(word);
    }
  }

  // ---- the migration ----

  /** A legacy pairing row: its key and the comma list, absent when the column is NULL. */
  datatype LegacyPairing = LegacyPairing(route: Route, words: string, isNull: bool)

  function WordsOf(table: set<(Route, string)>, route: Route): set<string> {
    set row | row in table && row.0 == route :: row.1
  }

  /** The rows of one route. */
  function RowsFor(route: Route, words: set<string>): set<(Route, string)> {
    set w | w in words :: (route, w)
  }

  lemma AddedWords(table: set<(Route, string)>, route: Route, words: set<string>, other: Route)
    ensures WordsOf(table + RowsFor(route, words), other) == WordsOf(table, other) + if other == route then words else {}
  {
    var rows := RowsFor(route, words);
    if other == route {
      forall w | w in words ensures w in WordsOf(table + rows, route) {
        assert (route, w) in rows;
      }
    }
  }

  /** The inserts for one pairing. */
  method InsertWords(before: set<(Route, string)>, route: Route, words: seq<string>) returns (table: set<(Route, string)>)
    ensures table == before + RowsFor(route, Elements(words))
  {
    table := before;
    for k := 0 to |words|
      invariant table == before + RowsFor(route, Elements(words[..k]))
    {
      table := table + {(route, words[k])};
      assert words[..k + 1] == words[..k] + [words[k]];
      ElementsStep(words[..k], words[k]);
    }
    assert words[..|words|] == words;
  }

  /** The words a legacy pairing stands for; an absent list has none. */
  function WordsOfLegacy(p: LegacyPairing): set<string> {
    if p.isNull then {} else LegacyWords(p.words)
  }

  /** One pairing of the migration. */
  method MigrateOne(before: set<(Route, string)>, p: LegacyPairing) returns (table: set<(Route, string)>)
    ensures table == before + RowsFor(p.route, WordsOfLegacy(p))
  {
    BlankListHasNoWords("");
    hide LegacyWords;
    if !p.isNull && p.words != "" {
      var words := SplitBlockedWordsLegacy(p.words);
      table := InsertWords(before, p.route, words);
    } else {
      table := before;
    }
  }

  /** v2NormalizeBlockedWords: fills the new table, which the same transaction has just created empty. */
  method MigrateBlockedWords(pairs: seq<LegacyPairing>) returns (table: set<(Route, string)>)
    requires forall i, j | 0 <= i < j < |pairs| :: pairs[i].route != pairs[j].route
    ensures forall i | 0 <= i < |pairs| :: WordsOf(table, pairs[i].route) == WordsOfLegacy(pairs[i])
    ensures forall row | row in table :: exists i | 0 <= i < |pairs| :: pairs[i].route == row.0
  {
    hide WordsOfLegacy;
    table := {};
    for n := 0 to |pairs|
      invariant forall i | 0 <= i < n :: WordsOf(table, pairs[i].route) == WordsOfLegacy(pairs[i])
      invariant forall row | row in table :: exists i | 0 <= i < n :: pairs[i].route == row.0
    {
      ghost var before := table;
      assert WordsOf(before, pairs[n].route) == {};
      table := MigrateOne(table, pairs[n]);
      forall i | 0 <= i <= n ensures WordsOf(table, pairs[i].route) == WordsOfLegacy(pairs[i]) {
        AddedWords(before, pairs[n].route, WordsOfLegacy(pairs[n]), pairs[i].route);
      }
    }
  }

  /** For every text, a migrated pairing blocks exactly what its comma list blocked. */
  lemma MigrationPreservesBlocking(table: set<(Route, string)>, p: LegacyPairing, stored: seq<string>, text: string)
    requires !p.isNull && WordsOf(table, p.route) == WordsOfLegacy(p)
    requires Elements(stored) == WordsOf(table, p.route)
    ensures Blocks(stored, text) == Blocks(Split(p.words, ','), text)
  {
    StoredWordsBlockTheSame(p.words, stored, text);
  }
}
